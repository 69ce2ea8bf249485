/** At-least-once work queue with expiring, fenced leases and bounded backoff. */
module Queue {
  import opened Wrappers
  import opened Database

  const MAX_ATTEMPTS := 8
  const LEASE_SECONDS := 120

  predicate Fresh(s: Db, id: Id) {
    id !in s.issued
  }

  function Enqueue(s: Db, k: Key, priority: int): Db {
    if k in s.tasks then s
    else s.(tasks := s.tasks[k := Task(priority, Pending, 0, s.now, "", None, 0)])
  }

  predicate Ready(t: Task, now: int) {
    && t.attempts < MAX_ATTEMPTS
    && ((t.status == Pending && t.availableAt <= now) || (t.status == Leased && t.leaseUntil < now))
  }

  /** `k` may be handed out before every other candidate: priority first, then availability. */
  ghost predicate FirstOf(s: Db, candidates: set<Key>, k: Key)
    requires forall c :: c in candidates ==> c in s.tasks
  {
    && k in candidates
    && forall c :: c in candidates ==>
         || s.tasks[c].priority < s.tasks[k].priority
         || (s.tasks[c].priority == s.tasks[k].priority && s.tasks[k].availableAt <= s.tasks[c].availableAt)
  }

  /** Ready tasks of the wanted kinds, without the rows another transaction has locked. */
  function Candidates(s: Db, kinds: set<Kind>, locked: set<Key>): set<Key> {
    set k | k in s.tasks && k.kind in kinds && k !in locked && Ready(s.tasks[k], s.now)
  }

  function LeaseRow(t: Task, owner: string, token: Id, now: int): Task {
    t.(status := Leased, owner := owner, token := Some(token), leaseUntil := now + LEASE_SECONDS,
       attempts := t.attempts + 1)
  }

  function Grantee(s: Db, k: Key, owner: string, token: Id): Db
    requires k in s.tasks
  {
    s.(tasks := s.tasks[k := LeaseRow(s.tasks[k], owner, token, s.now)],
       issued := s.issued + {token},
       grants := s.grants + {Grant(k, token, owner, s.tasks[k].attempts + 1)})
  }

  function Heartbeat(s: Db, k: Key, token: Id, owner: string): Db {
    if Holds(s, k, token) && s.tasks[k].owner == owner then
      s.(tasks := s.tasks[k := s.tasks[k].(leaseUntil := s.now + LEASE_SECONDS)])
    else s
  }

  function Finish(s: Db, g: Grant): Db {
    if Holds(s, g.key, g.token) then
      s.(tasks := s.tasks[g.key := s.tasks[g.key].(status := Done)])
    else s
  }

  function PowerOfTwo(n: nat): (p: int)
    ensures p > 0
  {
    if n == 0 then 1 else 2 * PowerOfTwo(n - 1)
  }

  /** `30_i32 * (1 << attempts.min(8))` seconds. */
  function Backoff(attempts: nat): int {
    30 * PowerOfTwo(if attempts < 8 then attempts else 8)
  }

  function Fail(s: Db, g: Grant): Db {
    if Holds(s, g.key, g.token) then
      var t := s.tasks[g.key];
      s.(tasks := s.tasks[g.key := t.(
         status := if t.attempts >= MAX_ATTEMPTS then Failed else Pending,
         availableAt := s.now + Backoff(if g.attempts < 0 then 0 else g.attempts))])
    else s
  }

  predicate Exhausted(t: Task, now: int) {
    t.status == Leased && t.leaseUntil < now && t.attempts >= MAX_ATTEMPTS
  }

  function ExpireExhausted(s: Db): Db {
    s.(tasks := map k | k in s.tasks ::
         if Exhausted(s.tasks[k], s.now) then s.tasks[k].(status := Failed) else s.tasks[k])
  }

  function FlagReview(s: Db, p: Id): Db {
    if p in s.repos then s.(repos := s.repos[p := s.repos[p].(needsReview := true)]) else s
  }

  /** The review flag follows the payload, even when the lease was already lost. */
  function FailPermanently(s: Db, g: Grant): Db {
    var s1 :=
      if Holds(s, g.key, g.token) then
        s.(tasks := s.tasks[g.key := s.tasks[g.key].(status := Failed)])
      else s;
    if g.key.kind == Snapshot && g.key.subject in s.subs then FlagReview(s1, s.subs[g.key.subject].repo) else s1
  }

  /** Only failed control tasks can be retried by an operator. */
  function Retry(s: Db, k: Key): Db {
    if k in s.tasks && s.tasks[k].status == Failed && k.kind != Grade then
      s.(tasks := s.tasks[k := s.tasks[k].(status := Pending, attempts := 0, availableAt := s.now)])
    else s
  }

  function Defer(s: Db, g: Grant, until: int): Db {
    if Holds(s, g.key, g.token) then
      var t := s.tasks[g.key];
      s.(tasks := s.tasks[g.key := t.(status := Pending, availableAt := until,
                                      attempts := if t.attempts - 1 > 0 then t.attempts - 1 else 0)])
    else s
  }

  /** An unfinished invitation is polled again five minutes after its task is done. */
  function PollInvitation(s: Db, g: Grant): Db {
    if g.key.kind == Provision && g.key in s.tasks && s.tasks[g.key].token == Some(g.token)
       && s.tasks[g.key].status == Done then
      s.(tasks := s.tasks[g.key := s.tasks[g.key].(status := Pending, attempts := 0, availableAt := s.now + 300)])
    else s
  }

  /** A rate-limit answer pushes a task that just failed further back. */
  function Postpone(s: Db, g: Grant, until: int): Db {
    if g.key in s.tasks && s.tasks[g.key].token == Some(g.token) && s.tasks[g.key].status == Pending then
      var t := s.tasks[g.key];
      s.(tasks := s.tasks[g.key := t.(availableAt := if t.availableAt > until then t.availableAt else until)])
    else s
  }

  /** `UPDATE tasks SET status='pending',attempts=0 … WHERE dedup_key=k AND status IN (…)`. */
  function Reset(s: Db, k: Key, from: set<TaskStatus>): Db {
    if k in s.tasks && s.tasks[k].status in from then
      s.(tasks := s.tasks[k := s.tasks[k].(status := Pending, attempts := 0, availableAt := s.now)])
    else s
  }
}
