/** Receipt-time registration, immutable final selection, and source retention. */
module Submissions {
  import opened Wrappers
  import opened Text
  import opened Database
  import opened Queue

  const MAX_ACTIVE_FETCHES := 8

  /** `UNIQUE(repository_id, delivery_id)` already holds a receipt of this delivery. */
  predicate Delivered(s: Db, p: Id, source: EventSource) {
    source.Webhook? && exists e :: e in s.events && s.events[e].repo == p && s.events[e].source == source
  }

  /** The receipts that are stored at all. */
  predicate Recordable(s: Db, p: Id, sha: string, source: EventSource) {
    p in s.repos && ValidHex(sha, 40) && !Delivered(s, p, source)
  }

  predicate Eligible(r: Database.Repo, received: int, source: EventSource) {
    r.revision.assignment.opensAt <= received <= r.Deadline() && source != Reconciliation && !r.closed
  }

  /** The newest submission of its repository, or the final one. */
  ghost predicate Wanted(s: Db, x: Id) {
    && x in s.subs && s.subs[x].repo in s.repos
    && (s.repos[s.subs[x].repo].final == Some(x) || Latest(s.subs, s.subs[x].repo) == Some(x))
  }

  ghost predicate Obsolete(s: Db, e: Id, k: Key) {
    && k in s.tasks && k.kind == Snapshot && s.tasks[k].status == Pending
    && InEnrollment(s, k.subject, e) && !Wanted(s, k.subject)
  }

  ghost function CancelObsolete(s: Db, e: Id): Db {
    s.(tasks := map k | k in s.tasks ::
         if Obsolete(s, e, k) then s.tasks[k].(status := Cancelled) else s.tasks[k])
  }

  function ActiveFetches(s: Db, e: Id): set<Key> {
    set k | k in s.tasks && k.kind == Snapshot && s.tasks[k].status in {Pending, Leased}
            && InEnrollment(s, k.subject, e)
  }

  /** A submission whose source is missing, still matters, and was never queued for fetching. */
  ghost predicate Unfetched(s: Db, x: Id) {
    && x in s.subs && s.subs[x].repo in s.repos
    && s.subs[x].source.None?
    && (var r := s.repos[s.subs[x].repo];
        r.final == Some(x) || (!r.closed && Latest(s.subs, s.subs[x].repo) == Some(x)))
    && Key(Snapshot, x) !in s.tasks
  }

  ghost function Waiting(s: Db, e: Id): set<Id> {
    set x | x in s.subs && Unfetched(s, x) && InEnrollment(s, x, e)
  }

  predicate IsFinal(s: Db, x: Id) {
    x in s.subs && s.subs[x].repo in s.repos && s.repos[s.subs[x].repo].final == Some(x)
  }

  /** `ORDER BY final DESC, received_at DESC`: `x` may be taken before `y`. */
  predicate FetchedBefore(s: Db, x: Id, y: Id)
    requires x in s.subs && y in s.subs
  {
    || (IsFinal(s, x) && !IsFinal(s, y))
    || (IsFinal(s, x) == IsFinal(s, y) && s.subs[x].receivedAt >= s.subs[y].receivedAt)
  }

  /** `picks` is a possible answer of the query that fills the free fetch slots. */
  ghost predicate Picked(s: Db, e: Id, picks: set<Id>) {
    var waiting := Waiting(s, e);
    var free := MAX_ACTIVE_FETCHES - |ActiveFetches(s, e)|;
    && picks <= waiting
    && (free <= 0 ==> picks == {})
    && (free > 0 ==> |picks| == if |waiting| < free then |waiting| else free)
    && forall x, y :: x in picks && y in waiting - picks ==> FetchedBefore(s, x, y)
  }

  function QueueFetches(s: Db, picks: set<Id>): Db
  {
    var added := set x | x in picks && Key(Snapshot, x) !in s.tasks :: Key(Snapshot, x);
    s.(tasks := map k | k in s.tasks.Keys + added ::
         if k in s.tasks then s.tasks[k]
         else Task(if IsFinal(s, k.subject) then 100 else 20, Pending, 0, s.now, "", None, 0))
  }

  ghost function ScheduleSnapshots(s: Db, p: Id, picks: set<Id>): Db {
    if p in s.repos then QueueFetches(CancelObsolete(s, s.repos[p].enrollment), picks) else s
  }

  function Log(s: Db, p: Id, sha: string, received: int, source: EventSource, event: Id): Db
    requires p in s.repos
  {
    s.(events := s.events[event := Event(p, sha, received, source, Eligible(s.repos[p], received, source))],
       issued := s.issued + {event})
  }

  function Register(s: Db, event: Id, sub: Id): Db
    requires event in s.events
  {
    var e := s.events[event];
    s.(subs := s.subs[sub := Submission(e.repo, event, e.sha, e.receivedAt, None)], issued := s.issued + {sub})
  }

  ghost predicate RepeatsLatest(s: Db, p: Id, sha: string) {
    Latest(s.subs, p).Some? && s.subs[Latest(s.subs, p).value].sha == sha
  }

  /** The receipt is kept whatever it is worth; only an eligible one can become a submission. */
  ghost function Receive(s: Db, p: Id, sha: string, received: int, source: EventSource, event: Id, sub: Id): Db
    requires p in s.repos
  {
    var r := s.repos[p];
    var s1 := Log(s, p, sha, received, source, event);
    if !Eligible(r, received, source) then
      if source == Reconciliation || r.closed || (source.Webhook? && received > r.Deadline()) then FlagReview(s1, p)
         else s1
    else if RepeatsLatest(s, p, sha) then s1
    else Register(s1, event, sub)
  }

  ghost function Record(s: Db, p: Id, sha: string, received: int, source: EventSource, event: Id, sub: Id,
                        picks: set<Id>): Db
  {
    if !Recordable(s, p, sha, source) then s
    else
      var s1 := Receive(s, p, sha, received, source, event, sub);
      if s1.subs == s.subs then s1 else ScheduleSnapshots(s1, p, picks)
  }

  predicate Due(s: Db, r: Database.Repo) {
    r.Deadline() < s.now
  }

  /** The fetch of submission `x` and the grading of its runs. */
  predicate WorkOf(s: Db, x: Id, k: Key) {
    || (k.kind == Snapshot && k.subject == x)
    || (k.kind == Grade && k.subject in s.runs && s.runs[k.subject].submission == x)
  }

  function Revive(t: Task, now: int): Task {
    if t.status in {Failed, Cancelled} then t.(priority := 100, status := Pending, attempts := 0, availableAt := now)
    else t.(priority := 100, availableAt := now)
  }

  function CloseRepo(s: Db, p: Id, final: Option<Id>): Db
    requires p in s.repos
  {
    s.(repos := s.repos[p := s.repos[p].(closed := true, final := final)])
  }

  function ReviveWork(s: Db, x: Id): Db {
    s.(tasks := map k | k in s.tasks :: if WorkOf(s, x, k) then Revive(s.tasks[k], s.now) else s.tasks[k])
  }

  ghost function Freeze(s: Db, p: Id): Db
    requires p in s.repos
  {
    var final := Latest(s.subs, p);
    if final.None? then CloseRepo(s, p, final) else ReviveWork(CloseRepo(s, p, final), final.value)
  }

  ghost function Close(s: Db, p: Id): Db {
    if p !in s.repos || !Due(s, s.repos[p]) then s
    else
      var s1 := if s.repos[p].closed then s else Freeze(s, p);
      Reset(Enqueue(s1, Key(Lock, p), 100), Key(Lock, p), {Failed})
  }

  function Extend(s: Db, p: Id, deadline: int): Db {
    if p in s.repos && !s.repos[p].closed && deadline > s.repos[p].Deadline() && deadline > s.now then
      s.(repos := s.repos[p := s.repos[p].(extension := Some(deadline))])
    else s
  }

  /** The submission already made from an event, if any (`event_id` is unique). */
  ghost predicate MadeFrom(s: Db, event: Id, x: Id) {
    x in s.subs && s.subs[x].event == event
  }

  ghost function Made(s: Db, event: Id): (x: Id)
    requires exists y: Id :: MadeFrom(s, event, y)
    ensures MadeFrom(s, event, x)
  {
    var y: Id :| MadeFrom(s, event, y); y
  }

  function MakeFinal(s: Db, p: Id, x: Id): Db
    requires p in s.repos
  {
    s.(repos := s.repos[p := s.repos[p].(final := Some(x), needsReview := false)])
  }

  /** An audited instructor choice among recorded receipts of a closed repository. */
  ghost function Select(s: Db, event: Id, id: Id): Db {
    if event !in s.events || s.events[event].repo !in s.repos || !s.repos[s.events[event].repo].closed then s
    else if exists x: Id :: MadeFrom(s, event, x) then
      var x := Made(s, event);
      Enqueue(MakeFinal(s, s.events[event].repo, x), Key(Snapshot, x), 100)
    else
      Enqueue(MakeFinal(Register(s, event, id), s.events[event].repo, id), Key(Snapshot, id), 100)
  }

  /** `UPDATE submissions SET source_digest=$2 WHERE id=$1 AND source_digest IS NULL` */
  function Retain(s: Db, x: Id, digest: string): Db {
    if x in s.subs && s.subs[x].source.None? then
      s.(subs := s.subs[x := s.subs[x].(source := Some(digest))])
    else s
  }
}
