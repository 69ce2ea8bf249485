/** The source-fetch queue of an enrollment. */
module Fetching {
  import opened Wrappers
  import opened Sets
  import opened Database
  import opened Queue
  import opened Submissions
  import opened Lifecycle
  import opened Invariant
  import opened Preservation
  import opened ControlSteps
  import opened Fate
  import opened Theorems

  function Cap(n: nat): nat {
    if n < MAX_ACTIVE_FETCHES then MAX_ACTIVE_FETCHES else n
  }

  lemma KeysOf(picks: set<Id>, keys: set<Key>)
    requires keys == set x | x in picks :: Key(Snapshot, x)
    ensures |keys| == |picks|
    decreases picks
  {
    if picks != {} {
      var x :| x in picks;
      var rest := picks - {x};
      KeysOf(rest, set y | y in rest :: Key(Snapshot, y));
      assert keys == (set y | y in rest :: Key(Snapshot, y)) + {Key(Snapshot, x)};
    }
  }

  lemma CancelShrinks(s: Db, e: Id)
    ensures ActiveFetches(CancelObsolete(s, e), e) <= ActiveFetches(s, e)
  {
    hide Latest, Wanted;
  }

  lemma QueueGrows(s: Db, e: Id, picks: set<Id>)
    ensures ActiveFetches(QueueFetches(s, picks), e) <= ActiveFetches(s, e) + set x | x in picks :: Key(Snapshot, x)
  {
    hide Latest;
  }

  /** Filling the free slots never exceeds eight active fetches of the enrollment, unless more
      were active before. */
  lemma SlotsFilled(s: Db, p: Id, picks: set<Id>)
    requires p in s.repos && FillsSlots(s, p, picks)
    ensures var e := s.repos[p].enrollment;
            |ActiveFetches(ScheduleSnapshots(s, p, picks), e)| <= Cap(|ActiveFetches(s, e)|)
  {
    hide ActiveFetches, CancelObsolete, QueueFetches, Waiting, FetchedBefore;
    var e := s.repos[p].enrollment;
    var s1 := CancelObsolete(s, e);
    var keys := set x | x in picks :: Key(Snapshot, x);
    CancelShrinks(s, e);
    SubsetSize(ActiveFetches(s1, e), ActiveFetches(s, e));
    QueueGrows(s1, e, picks);
    KeysOf(picks, keys);
    SubsetSize(ActiveFetches(QueueFetches(s1, picks), e), ActiveFetches(s1, e) + keys);
    UnionSize(ActiveFetches(s1, e), keys);
  }

  /** Afterwards every pending fetch of the enrollment is for a newest or a final submission. */
  lemma OnlyWantedPending(s: Db, p: Id, picks: set<Id>, k: Key)
    requires p in s.repos && FillsSlots(s, p, picks)
    ensures var s' := ScheduleSnapshots(s, p, picks);
            k in s'.tasks && k.kind == Snapshot && s'.tasks[k].status == Pending
            && InEnrollment(s', k.subject, s.repos[p].enrollment)
            ==> Wanted(s', k.subject)
  {
    hide Latest, FetchedBefore, ActiveFetches;
  }

  lemma QueueAdds(s: Db, e: Id, picks: set<Id>)
    requires picks <= Waiting(s, e)
    ensures ActiveFetches(QueueFetches(s, picks), e) == ActiveFetches(s, e) + set x | x in picks :: Key(Snapshot, x)
    ensures ActiveFetches(s, e) !! set x | x in picks :: Key(Snapshot, x)
  {
    hide Latest, IsFinal;
    assert forall x :: x in picks ==> Unfetched(s, x) && InEnrollment(s, x, e);
  }

  /** A submission of the enrollment whose source is missing and still matters. */
  ghost predicate Missing(s: Db, e: Id, x: Id) {
    && x in s.subs && s.subs[x].source.None? && s.subs[x].repo in s.repos && s.repos[s.subs[x].repo].enrollment == e
    && (|| s.repos[s.subs[x].repo].final == Some(x)
        || (!s.repos[s.subs[x].repo].closed && IsLatest(s.subs, s.subs[x].repo, x)))
  }

  lemma MissingWaits(s: Db, e: Id, x: Id)
    ensures var s1 := CancelObsolete(s, e);
            x in Waiting(s1, e) <==> Missing(s, e, x) && Key(Snapshot, x) !in s.tasks
  {
    hide Latest, Obsolete;
    if x in s.subs && IsLatest(s.subs, s.subs[x].repo, x) {
      LatestIs(s.subs, s.subs[x].repo, x);
    }
  }

  /** No slot stays idle: a submission that matters has its fetch queued, or eight are active. */
  lemma NoSlotIdle(s: Db, p: Id, picks: set<Id>, x: Id)
    requires p in s.repos && FillsSlots(s, p, picks) && Missing(s, s.repos[p].enrollment, x)
    ensures var s' := ScheduleSnapshots(s, p, picks);
            || Key(Snapshot, x) in s'.tasks
            || |set k | k in s'.tasks && k.kind == Snapshot && s'.tasks[k].status in {Pending, Leased}
                        && InEnrollment(s', k.subject, s.repos[p].enrollment)| >= 8
  {
    hide CancelObsolete, QueueFetches, Waiting, FetchedBefore, InEnrollment, ActiveFetches, Missing;
    var e := s.repos[p].enrollment;
    var s1 := CancelObsolete(s, e);
    MissingWaits(s, e, x);
    CancelKeys(s, e);
    PickedKeys(s1, picks);
    SameActive(ScheduleSnapshots(s, p, picks), e);
    if x in Waiting(s1, e) && x !in picks {
      var keys := set y | y in picks :: Key(Snapshot, y);
      QueueAdds(s1, e, picks);
      KeysOf(picks, keys);
      ProperSubset(picks, Waiting(s1, e), x);
      DisjointSize(ActiveFetches(s1, e), keys);
    }
  }

  lemma SameActive(s: Db, e: Id)
    ensures ActiveFetches(s, e) ==
            set k | k in s.tasks && k.kind == Snapshot && s.tasks[k].status in {Pending, Leased}
                    && InEnrollment(s, k.subject, e)
  {
  }

  lemma CancelKeys(s: Db, e: Id)
    ensures var s1 := CancelObsolete(s, e); s1 == s.(tasks := s1.tasks) && s1.tasks.Keys == s.tasks.Keys
  {
    hide Obsolete;
  }

  lemma PickedKeys(s: Db, picks: set<Id>)
    ensures forall x :: x in picks ==> Key(Snapshot, x) in QueueFetches(s, picks).tasks
    ensures s.tasks.Keys <= QueueFetches(s, picks).tasks.Keys
    ensures forall k :: k in QueueFetches(s, picks).tasks && k !in s.tasks ==>
              && k.kind == Snapshot && k.subject in picks
              && QueueFetches(s, picks).tasks[k] ==
                 Task(if IsFinal(s, k.subject) then 100 else 20, Pending, 0, s.now, "", None, 0)
    ensures QueueFetches(s, picks) == s.(tasks := QueueFetches(s, picks).tasks)
  {
    hide IsFinal;
  }

  /** What is queued is missing and fetched at once, final submissions first and then the newest:
      nothing is left behind for something less urgent. */
  lemma MostUrgentFirst(s: Db, p: Id, picks: set<Id>, k: Key, x: Id)
    requires p in s.repos && FillsSlots(s, p, picks)
    requires k in ScheduleSnapshots(s, p, picks).tasks && k !in s.tasks
    ensures var s' := ScheduleSnapshots(s, p, picks);
            && k.kind == Snapshot && Missing(s, s.repos[p].enrollment, k.subject)
            && s'.tasks[k] == Task(if s.repos[s.subs[k.subject].repo].final == Some(k.subject) then 100 else 20,
                                   Pending, 0, s.now, "", None, 0)
            && (Missing(s, s.repos[p].enrollment, x) && Key(Snapshot, x) !in s'.tasks ==>
                  var final := s.repos[s.subs[k.subject].repo].final == Some(k.subject);
                  var other := s.repos[s.subs[x].repo].final == Some(x);
                  || (final && !other)
                  || (final == other && s.subs[k.subject].receivedAt >= s.subs[x].receivedAt))
  {
    hide CancelObsolete, QueueFetches, Waiting, ActiveFetches;
    var e := s.repos[p].enrollment;
    var s1 := CancelObsolete(s, e);
    CancelKeys(s, e);
    PickedKeys(s1, picks);
    MissingWaits(s, e, x);
    MissingWaits(s, e, k.subject);
    assert k.subject in picks && Key(Snapshot, k.subject) == k;
    if Missing(s, e, x) && Key(Snapshot, x) !in QueueFetches(s1, picks).tasks {
      assert x in Waiting(s1, e) - picks && FetchedBefore(s1, k.subject, x);
    }
  }

  // ---- the slots can always be filled ----

  lemma {:induction false} MostUrgentExists(s: Db, some: set<Id>) returns (x: Id)
    requires some != {} && some <= s.subs.Keys
    ensures x in some && forall y :: y in some ==> FetchedBefore(s, x, y)
  {
    hide IsFinal;
    var z :| z in some;
    var rest := some - {z};
    assert some == rest + {z};
    if rest == {} {
      x := z;
    } else {
      var w := MostUrgentExists(s, rest);
      x := if FetchedBefore(s, z, w) then z else w;
    }
  }

  lemma {:induction false} MostUrgentSome(s: Db, some: set<Id>, n: nat) returns (picks: set<Id>)
    requires some <= s.subs.Keys && n <= |some|
    ensures picks <= some && |picks| == n && forall x, y :: x in picks && y in some - picks ==> FetchedBefore(s, x, y)
  {
    hide FetchedBefore;
    if n == 0 {
      picks := {};
    } else {
      var x := MostUrgentExists(s, some);
      var more := MostUrgentSome(s, some - {x}, n - 1);
      picks := more + {x};
      assert some - picks == some - {x} - more;
    }
  }

  /** The query that fills the slots has an answer in every state, so no receipt is ever blocked. */
  lemma PicksExist(s: Db, p: Id) returns (picks: set<Id>)
    ensures FillsSlots(s, p, picks)
  {
    hide FetchedBefore, CancelObsolete, ActiveFetches, Unfetched, InEnrollment;
    picks := {};
    if p in s.repos {
      var e := s.repos[p].enrollment;
      var s1 := CancelObsolete(s, e);
      var free := MAX_ACTIVE_FETCHES - |ActiveFetches(s1, e)|;
      var waiting := Waiting(s1, e);
      if free > 0 {
        picks := MostUrgentSome(s1, waiting, if |waiting| < free then |waiting| else free);
      }
    }
  }

  // ---- over runs ----

  /** Calls that can activate a fetch of enrollment `e` without counting. */
  predicate Bypasses(s: Db, op: Op, e: Id) {
    match op
    case Close(p) => p in s.repos && s.repos[p].enrollment == e
    case Retry(k) => k.kind == Snapshot && InEnrollment(s, k.subject, e)
    case Select(event, _) =>
      event in s.events && s.events[event].repo in s.repos && s.repos[s.events[event].repo].enrollment == e
    case _ => false
  }

  ghost predicate NoBypass(s: Db, ops: seq<Op>, e: Id)
    requires Legal(s, ops)
    decreases |ops|
  {
    ops == [] || (!Bypasses(s, ops[0], e) && NoBypass(Apply(s, ops[0]), ops[1..], e))
  }

  lemma SameEnrollment(s: Db, s': Db, x: Id, e: Id)
    requires x in s.subs && s.subs[x].repo in s.repos && SubmissionsKept(s, s') && ReposKept(s, s')
    ensures InEnrollment(s', x, e) <==> InEnrollment(s, x, e)
  {
  }

  lemma NoNewFetches(s: Db, op: Op, e: Id)
    requires Inv(s) && Enabled(s, op) && !Bypasses(s, op, e) && !op.Record? && !op.Refill?
    ensures ActiveFetches(Apply(s, op), e) <= ActiveFetches(s, e)
  {
    hide Inv, Kept, Enabled, Apply, References, Fenced, RunsKept, SubmissionsKept, ReposKept, EventsKept;
    hide InEnrollment, Resets, FetchedFor, Bypasses;
    var s' := Apply(s, op);
    Open(s);
    Step(s, op);
    KeptInv(s, s');
    FateOfAll(s, op);
    forall k | k in ActiveFetches(s', e)
      ensures k in ActiveFetches(s, e)
    {
      if k !in s.tasks {
        NewFetch(s, op, k, e, s');
      } else {
        assert RowFate(s, op, k, s.tasks[k], s'.tasks[k]);
        FetchRow(s, k);
        SameEnrollment(s, s', k.subject, e);
        if Resets(s, op, k, s.tasks[k]) {
          ResetFetch(s, op, k, e);
        }
      }
    }
  }

  /** A row that becomes an active fetch of `e` without a bypass was one before. */
  lemma ResetFetch(s: Db, op: Op, k: Key, e: Id)
    requires k in s.tasks && k.kind == Snapshot && InEnrollment(s, k.subject, e) && Resets(s, op, k, s.tasks[k])
    ensures Bypasses(s, op, e)
  {
    hide Latest;
  }

  lemma NewFetch(s: Db, op: Op, k: Key, e: Id, s': Db)
    requires FetchedFor(s, op, k.subject, s') && !op.Record? && !op.Refill? && ReposKept(s, s')
             && InEnrollment(s', k.subject, e)
    ensures Bypasses(s, op, e)
  {
  }

  lemma FetchRow(s: Db, k: Key)
    requires References(s) && k in s.tasks && k.kind == Snapshot
    ensures k.subject in s.subs && s.subs[k.subject].repo in s.repos
  {
  }

  lemma ScheduleElsewhere(s: Db, p: Id, picks: set<Id>, e: Id)
    requires FillsSlots(s, p, picks) && (p in s.repos ==> s.repos[p].enrollment != e)
    ensures ActiveFetches(ScheduleSnapshots(s, p, picks), e) <= ActiveFetches(s, e)
  {
    hide Latest, FetchedBefore;
  }

  lemma ScheduleCaps(s: Db, p: Id, picks: set<Id>, e: Id)
    requires FillsSlots(s, p, picks)
    ensures |ActiveFetches(ScheduleSnapshots(s, p, picks), e)| <= Cap(|ActiveFetches(s, e)|)
  {
    hide ActiveFetches, ScheduleSnapshots, FillsSlots;
    if p in s.repos && s.repos[p].enrollment == e {
      SlotsFilled(s, p, picks);
    } else {
      ScheduleElsewhere(s, p, picks, e);
      SubsetSize(ActiveFetches(ScheduleSnapshots(s, p, picks), e), ActiveFetches(s, e));
    }
  }

  lemma ReceiveFetches(s: Db, p: Id, sha: string, received: int, source: EventSource, event: Id, sub: Id, e: Id)
    requires Inv(s) && p in s.repos && Fresh(s, event) && Fresh(s, sub) && event != sub
    ensures ActiveFetches(Receive(s, p, sha, received, source, event, sub), e) <= ActiveFetches(s, e)
  {
    hide Inv, Kept, Receive, References, RunsKept, SubmissionsKept, ReposKept, EventsKept, InEnrollment;
    var s1 := Receive(s, p, sha, received, source, event, sub);
    Open(s);
    ReceiveKeeps(s, p, sha, received, source, event, sub);
    KeptInv(s, s1);
    ReceiveTasks(s, p, sha, received, source, event, sub);
    forall k | k in ActiveFetches(s1, e)
      ensures k in ActiveFetches(s, e)
    {
      FetchRow(s, k);
      SameEnrollment(s, s1, k.subject, e);
    }
  }

  lemma FetchesCapped(s: Db, op: Op, e: Id)
    requires Inv(s) && Enabled(s, op) && !Bypasses(s, op, e)
    ensures |ActiveFetches(Apply(s, op), e)| <= Cap(|ActiveFetches(s, e)|)
  {
    hide ActiveFetches, Inv, Receive, ScheduleSnapshots, FillsSlots, Delivered;
    if op.Refill? {
      ScheduleCaps(s, op.p, op.picks, e);
    } else if op.Record? {
      if Recordable(s, op.p, op.sha, op.source) {
        var s1 := Receive(s, op.p, op.sha, op.received, op.source, op.event, op.sub);
        ReceiveFetches(s, op.p, op.sha, op.received, op.source, op.event, op.sub, e);
        SubsetSize(ActiveFetches(s1, e), ActiveFetches(s, e));
        if s1.subs != s.subs {
          ScheduleCaps(s1, op.p, op.picks, e);
        }
      }
    } else {
      NoNewFetches(s, op, e);
      SubsetSize(ActiveFetches(Apply(s, op), e), ActiveFetches(s, e));
    }
  }

  /** Runs without closures, operator retries and selections of an enrollment keep it at eight
      active fetches or below. */
  lemma {:induction false} EightFetches(s: Db, ops: seq<Op>, e: Id)
    requires Inv(s) && Legal(s, ops) && NoBypass(s, ops, e) && |ActiveFetches(s, e)| <= MAX_ACTIVE_FETCHES
    ensures |ActiveFetches(Exec(s, ops), e)| <= MAX_ACTIVE_FETCHES
    decreases |ops|
  {
    hide Inv, Kept, Extends, Enabled, Apply, Legal, ActiveFetches, Bypasses;
    if ops != [] {
      Unfold(s, ops);
      Step(s, ops[0]);
      KeptInv(s, Apply(s, ops[0]));
      FetchesCapped(s, ops[0], e);
      EightFetches(Apply(s, ops[0]), ops[1..], e);
    }
  }

  // ---- capture of the final submission ----

  /** The final source is retained, its fetch is active, or no fetch was ever queued and the next
      refill will find it. */
  ghost predicate InReach(s: Db, f: Id) {
    && f in s.subs
    && (s.subs[f].source.Some? || Unfetched(s, f) || (Key(Snapshot, f) in s.tasks && Active(s.tasks[Key(Snapshot, f)])))
  }

  /** The state a closure leaves, as far as the chosen submission is concerned. */
  ghost predicate FrozenOn(s: Db, p: Id, f: Id, s': Db) {
    && p in s'.repos && s'.repos[p].closed && s'.repos[p].final == Some(f)
    && s'.subs == s.subs && s'.runs == s.runs
    && (Key(Snapshot, f) in s'.tasks <==> Key(Snapshot, f) in s.tasks)
    && (Key(Snapshot, f) in s.tasks ==> s'.tasks[Key(Snapshot, f)] == Revive(s.tasks[Key(Snapshot, f)], s.now))
  }

  lemma FreezeShape(s: Db, p: Id)
    requires p in s.repos && Latest(s.subs, p).Some?
    ensures FrozenOn(s, p, Latest(s.subs, p).value, Freeze(s, p))
  {
    hide Latest, IsLatest, Revive;
  }

  lemma CloseShape(s: Db, p: Id)
    requires p in s.repos && !s.repos[p].closed && Due(s, s.repos[p]) && Latest(s.subs, p).Some?
    ensures FrozenOn(s, p, Latest(s.subs, p).value, Submissions.Close(s, p))
  {
    hide Latest, IsLatest, Revive, Freeze;
    FreezeShape(s, p);
  }

  lemma CapturedAt(s: Db, p: Id)
    requires Inv(s) && p in s.repos && !s.repos[p].closed && Due(s, s.repos[p]) && Latest(s.subs, p).Some?
    ensures var s' := Submissions.Close(s, p); var f := Latest(s.subs, p).value;
            p in s'.repos && s'.repos[p].final == Some(f) && InReach(s', f)
  {
    hide Inv, Snapshots, Latest, IsLatest, Submissions.Close, HasPublicRun;
    var f := Latest(s.subs, p).value;
    var k := Key(Snapshot, f);
    Open(s);
    LatestRow(s, p);
    CloseShape(s, p);
    if k in s.tasks && s.tasks[k].status == TaskStatus.Done {
      DoneAt(s, f);
    }
  }

  /** In every reachable state, closing never loses the final source. */
  lemma FinalCaptured(ops: seq<Op>, p: Id)
    requires Legal(EMPTY, ops)
    requires var s := Exec(EMPTY, ops);
             p in s.repos && !s.repos[p].closed && Due(s, s.repos[p]) && Latest(s.subs, p).Some?
    ensures var s := Exec(EMPTY, ops); var s' := Submissions.Close(s, p); var f := Latest(s.subs, p).value;
            p in s'.repos && s'.repos[p].final == Some(f) && InReach(s', f)
  {
    hide Inv, Legal, Exec, Latest, Submissions.Close, InReach;
    Reachable(ops);
    CapturedAt(Exec(EMPTY, ops), p);
  }

  lemma LatestRow(s: Db, p: Id)
    requires Latest(s.subs, p).Some?
    ensures InRepo(s, Latest(s.subs, p).value, p)
  {
  }

  lemma DoneAt(s: Db, f: Id)
    requires Snapshots(s) && Key(Snapshot, f) in s.tasks && s.tasks[Key(Snapshot, f)].status == TaskStatus.Done
    ensures f in s.subs && s.subs[f].source.Some? && HasPublicRun(s.runs, f)
  {
  }

  /** In every reachable state a finished fetch has left its source and a public run behind. */
  lemma DoneIsCaptured(ops: seq<Op>, f: Id)
    requires Legal(EMPTY, ops)
    requires var s := Exec(EMPTY, ops);
             Key(Snapshot, f) in s.tasks && s.tasks[Key(Snapshot, f)].status == TaskStatus.Done
    ensures var s := Exec(EMPTY, ops); f in s.subs && s.subs[f].source.Some? && HasPublicRun(s.runs, f)
  {
    hide Inv, Legal, Exec, HasPublicRun, Snapshots;
    Reachable(ops);
    Open(Exec(EMPTY, ops));
    DoneAt(Exec(EMPTY, ops), f);
  }
}
