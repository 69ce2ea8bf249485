/** The final selection against the last eligible receipt. */
module Selection {
  import opened Wrappers
  import opened Protocol
  import opened Database
  import opened Queue
  import opened Submissions
  import opened Grading
  import opened Lifecycle
  import opened Invariant
  import opened Preservation
  import opened ControlSteps
  import opened Theorems
  import opened Results
  import opened Frames

  ghost predicate ReceiptOf(s: Db, p: Id, e: Id) {
    e in s.events && s.events[e].repo == p && s.events[e].eligible
  }

  /** `e` is a most recent eligible receipt of repository `p`. */
  ghost predicate Newest(s: Db, p: Id, e: Id) {
    && ReceiptOf(s, p, e)
    && forall f :: ReceiptOf(s, p, f) ==> s.events[f].receivedAt <= s.events[e].receivedAt
  }

  /** The submission a repository stands for: the newest while it is open, the final one after. */
  ghost function Choice(s: Db, p: Id): Option<Id>
    requires p in s.repos
  {
    if s.repos[p].closed then s.repos[p].final else Latest(s.subs, p)
  }

  ghost predicate Carries(s: Db, c: Option<Id>, sha: string) {
    c.Some? && c.value in s.subs && s.subs[c.value].sha == sha
  }

  /** The choice has the commit of every most recent eligible receipt. */
  ghost predicate Agrees(s: Db, p: Id) {
    p in s.repos ==> forall e :: Newest(s, p, e) ==> Carries(s, Choice(s, p), s.events[e].sha)
  }

  ghost predicate LaterReceipt(s: Db, p: Id, t: int) {
    exists e :: ReceiptOf(s, p, e) && s.events[e].receivedAt > t
  }

  ghost predicate Latecomer(s: Db, p: Id, t: int) {
    exists e :: ReceiptOf(s, p, e) && s.events[e].receivedAt >= t
  }

  /** When a receipt of `sha` at `t`, to be stored under `sub`, keeps an open repository in
      agreement: nothing was received, the commit is the current one, the receipt is the newest,
      or it sorts before the current submission. */
  ghost predicate InOrder(s: Db, p: Id, sha: string, t: int, sub: Id) {
    var l := Latest(s.subs, p);
    || l.None?
    || s.subs[l.value].sha == sha
    || !Latecomer(s, p, t)
    || t < s.subs[l.value].receivedAt
    || (t == s.subs[l.value].receivedAt && sub < l.value && LaterReceipt(s, p, t))
  }

  // ---- one receipt ----

  lemma {:induction false} NewestAmong(s: Db, some: set<Id>) returns (e: Id)
    requires some != {} && forall f :: f in some ==> f in s.events
    ensures e in some && forall f :: f in some ==> s.events[f].receivedAt <= s.events[e].receivedAt
  {
    var z :| z in some;
    var rest := some - {z};
    assert some == rest + {z};
    if rest == {} {
      e := z;
    } else {
      var w := NewestAmong(s, rest);
      e := if s.events[z].receivedAt > s.events[w].receivedAt then z else w;
    }
  }

  lemma NewestExists(s: Db, p: Id, f: Id) returns (e: Id)
    requires ReceiptOf(s, p, f)
    ensures Newest(s, p, e)
  {
    var mine := set g | g in s.events && ReceiptOf(s, p, g);
    assert f in mine;
    e := NewestAmong(s, mine);
  }

  /** An eligible receipt was stored as `event`; it became submission `sub` unless it repeats the
      current commit. */
  ghost predicate Taken(s: Db, p: Id, sha: string, t: int, event: Id, sub: Id, s': Db) {
    && event !in s.events && sub !in s.subs
    && s'.events.Keys == s.events.Keys + {event} && (forall e :: e in s.events ==> s'.events[e] == s.events[e])
    && s'.events[event].repo == p && s'.events[event].eligible && s'.events[event].sha == sha
    && s'.events[event].receivedAt == t
    && (if RepeatsLatest(s, p, sha) then s'.subs == s.subs
        else s'.subs.Keys == s.subs.Keys + {sub} && (forall x :: x in s.subs ==> s'.subs[x] == s.subs[x])
             && s'.subs[sub].repo == p && s'.subs[sub].sha == sha && s'.subs[sub].receivedAt == t)
  }

  lemma TakenLatest(s: Db, p: Id, sha: string, t: int, event: Id, sub: Id, s': Db)
    requires Taken(s, p, sha, t, event, sub, s')
    ensures Latest(s'.subs, p) ==
            var l := Latest(s.subs, p);
            if RepeatsLatest(s, p, sha) then l
            else if l.None? || s.subs[l.value].receivedAt < t || (s.subs[l.value].receivedAt == t && l.value < sub)
                    then Some(sub)
            else l
  {
    hide Latest;
    if !RepeatsLatest(s, p, sha) {
      var l := Latest(s.subs, p);
      var x := if l.None? || s.subs[l.value].receivedAt < t || (s.subs[l.value].receivedAt == t && l.value < sub)
          then sub else l.value;
      LatestIs(s'.subs, p, x);
    }
  }

  lemma TakenNewest(s: Db, p: Id, sha: string, t: int, event: Id, sub: Id, s': Db, e: Id)
    requires Taken(s, p, sha, t, event, sub, s') && Newest(s, p, e)
    ensures Newest(s', p, e) <==> t <= s.events[e].receivedAt
    ensures Newest(s', p, event) <==> s.events[e].receivedAt <= t
    ensures forall f :: Newest(s', p, f) && f != event ==> Newest(s, p, f) && t <= s.events[e].receivedAt
  {
    hide RepeatsLatest;
    assert ReceiptOf(s', p, event) && ReceiptOf(s', p, e);
    assert forall f :: f != event ==> (ReceiptOf(s', p, f) <==> ReceiptOf(s, p, f));
  }

  ghost predicate Speaks(s: Db, p: Id) {
    forall e :: Newest(s, p, e) ==> Carries(s, Latest(s.subs, p), s.events[e].sha)
  }

  lemma TakenFirst(s: Db, p: Id, sha: string, t: int, event: Id, sub: Id, s': Db)
    requires Taken(s, p, sha, t, event, sub, s') && Speaks(s, p) && (forall e :: !ReceiptOf(s, p, e))
    requires forall x :: x in s.subs ==> s.subs[x].repo != p
    ensures Speaks(s', p)
  {
    hide Latest, IsLatest;
    TakenLatest(s, p, sha, t, event, sub, s');
    LatestNone(s, p);
    assert forall e :: ReceiptOf(s', p, e) ==> e == event;
  }

  lemma LatestNone(s: Db, p: Id)
    requires forall x :: x in s.subs ==> s.subs[x].repo != p
    ensures Latest(s.subs, p).None?
  {
  }

  lemma TakenNext(s: Db, p: Id, sha: string, t: int, event: Id, sub: Id, s': Db, e: Id)
    requires Taken(s, p, sha, t, event, sub, s') && Speaks(s, p) && Newest(s, p, e)
    requires var l := Latest(s.subs, p);
             l.Some? && l.value in s.subs && s.subs[l.value].receivedAt <= s.events[e].receivedAt
    ensures Speaks(s', p) <==> InOrder(s, p, sha, t, sub)
  {
    hide Latest, IsLatest, Newest, ReceiptOf, Latecomer, LaterReceipt;
    TakenLatest(s, p, sha, t, event, sub, s');
    TakenNewest(s, p, sha, t, event, sub, s', e);
    TakenEvents(s, p, sha, t, event, sub, s', e);
    LaterIs(s, p, t, e);
    NewestStored(s', p);
    NewestStored(s, p);
    assert Carries(s, Latest(s.subs, p), s.events[e].sha);
    if InOrder(s, p, sha, t, sub) {
      forall f | Newest(s', p, f)
        ensures Carries(s', Latest(s'.subs, p), s'.events[f].sha)
      {
        if f != event {
          assert Carries(s, Latest(s.subs, p), s.events[f].sha);
        }
      }
    } else {
      assert Newest(s', p, e);
      assert !Carries(s', Latest(s'.subs, p), s'.events[e].sha)
             || (Newest(s', p, event) && !Carries(s', Latest(s'.subs, p), sha));
    }
  }

  lemma TakenEvents(s: Db, p: Id, sha: string, t: int, event: Id, sub: Id, s': Db, e: Id)
    requires Taken(s, p, sha, t, event, sub, s') && Newest(s, p, e)
    ensures e in s'.events && s'.events[e] == s.events[e] && e != event
  {
  }

  lemma NewestStored(s: Db, p: Id)
    ensures forall e :: Newest(s, p, e) ==> e in s.events
  {
  }

  lemma LaterIs(s: Db, p: Id, t: int, e: Id)
    requires Newest(s, p, e)
    ensures Latecomer(s, p, t) <==> s.events[e].receivedAt >= t
    ensures LaterReceipt(s, p, t) <==> s.events[e].receivedAt > t
  {
  }

  lemma ReceiveTakes(s: Db, p: Id, sha: string, t: int, source: EventSource, event: Id, sub: Id)
    requires References(s) && p in s.repos && Fresh(s, event) && Fresh(s, sub) && Eligible(s.repos[p], t, source)
    ensures var s' := Receive(s, p, sha, t, source, event, sub);
            Taken(s, p, sha, t, event, sub, s') && s'.repos == s.repos
  {
    hide Eligible, RepeatsLatest, Register, Log;
    hide Taken;
    LogTakes(s, p, sha, t, source, event, sub);
  }

  lemma LogTakes(s: Db, p: Id, sha: string, t: int, source: EventSource, event: Id, sub: Id)
    requires References(s) && p in s.repos && Fresh(s, event) && Fresh(s, sub) && Eligible(s.repos[p], t, source)
    ensures var s1 := Log(s, p, sha, t, source, event);
            && event in s1.events && s1.repos == s.repos && Register(s1, event, sub).repos == s.repos
            && (RepeatsLatest(s, p, sha) ==> Taken(s, p, sha, t, event, sub, s1))
            && (!RepeatsLatest(s, p, sha) ==> Taken(s, p, sha, t, event, sub, Register(s1, event, sub)))
  {
    hide Eligible, RepeatsLatest;
  }

  lemma RecordIs(s: Db, op: Op)
    requires Enabled(s, op) && op.Record? && Recordable(s, op.p, op.sha, op.source)
    ensures Fresh(s, op.event) && Fresh(s, op.sub)
    ensures var s' := Receive(s, op.p, op.sha, op.received, op.source, op.event, op.sub);
            Apply(s, op).events == s'.events && Apply(s, op).subs == s'.subs && Apply(s, op).repos == s'.repos
  {
    hide Receive, FillsSlots, Delivered;
    hide CancelObsolete, QueueFetches;
    var s' := Receive(s, op.p, op.sha, op.received, op.source, op.event, op.sub);
    ScheduleFrame(s', op.p, op.picks);
  }

  lemma FirstReceipt(s: Db, p: Id) returns (e: Id)
    requires References(s) && Receipts(s) && p in s.repos && !s.repos[p].closed && Latest(s.subs, p).Some?
    ensures var l := Latest(s.subs, p);
            l.value in s.subs && Newest(s, p, e) && s.subs[l.value].receivedAt <= s.events[e].receivedAt
  {
    hide Latest;
    var l := Latest(s.subs, p).value;
    assert ReceiptOf(s, p, s.subs[l].event);
    e := NewestExists(s, p, s.subs[l].event);
  }

  lemma TakenAgrees(s: Db, p: Id, sha: string, t: int, event: Id, sub: Id, s': Db)
    requires References(s) && Receipts(s) && p in s.repos && !s.repos[p].closed && Speaks(s, p)
    requires Taken(s, p, sha, t, event, sub, s')
    ensures Speaks(s', p) <==> InOrder(s, p, sha, t, sub)
  {
    hide References, Receipts, Latest, Taken, Speaks, IsLatest, Newest;
    if Latest(s.subs, p).Some? {
      var e := FirstReceipt(s, p);
      TakenNext(s, p, sha, t, event, sub, s', e);
    } else {
      NothingReceived(s, p);
      TakenFirst(s, p, sha, t, event, sub, s');
    }
  }

  lemma NothingReceived(s: Db, p: Id)
    requires Speaks(s, p) && Latest(s.subs, p).None?
    ensures forall e :: !ReceiptOf(s, p, e)
    ensures forall x :: x in s.subs ==> s.subs[x].repo != p
  {
    hide Latest, ReceiptOf, Newest;
    forall e | ReceiptOf(s, p, e)
      ensures false
    {
      var f := NewestExists(s, p, e);
    }
  }

  /** An eligible receipt keeps the choice of an open repository on its newest receipt exactly when
      it comes in order. */
  lemma RecordAgreesIff(s: Db, op: Op)
    requires Inv(s) && Enabled(s, op) && op.Record? && Recordable(s, op.p, op.sha, op.source)
    requires Eligible(s.repos[op.p], op.received, op.source) && Agrees(s, op.p)
    ensures Agrees(Apply(s, op), op.p) <==> InOrder(s, op.p, op.sha, op.received, op.sub)
  {
    hide Inv, References, Receipts, Enabled, Apply, Receive, Delivered, Latest, Newest, Taken, InOrder;
    Open(s);
    RecordIs(s, op);
    ReceiveTakes(s, op.p, op.sha, op.received, op.source, op.event, op.sub);
    var s1 := Receive(s, op.p, op.sha, op.received, op.source, op.event, op.sub);
    TakenAgrees(s, op.p, op.sha, op.received, op.event, op.sub, s1);
    SameNewest(s1, Apply(s, op), op.p);
  }

  lemma SameNewest(s: Db, s': Db, p: Id)
    requires s'.events == s.events
    ensures forall e :: Newest(s, p, e) <==> Newest(s', p, e)
  {
    forall e
      ensures Newest(s, p, e) <==> Newest(s', p, e)
    {
      assert forall f :: ReceiptOf(s, p, f) <==> ReceiptOf(s', p, f);
    }
  }

  // ---- the other calls ----

  /** Nothing that the agreement of repository `p` depends on has changed. */
  ghost predicate Quiet(s: Db, s': Db, p: Id) {
    && p in s.repos && p in s'.repos && s'.repos[p].closed == s.repos[p].closed && s'.repos[p].final == s.repos[p].final
    && (forall e :: ReceiptOf(s', p, e) <==> ReceiptOf(s, p, e))
    && (forall x :: InRepo(s', x, p) <==> InRepo(s, x, p))
  }

  lemma QuietLatest(s: Db, s': Db, p: Id)
    requires Quiet(s, s', p) && SubmissionsKept(s, s')
    ensures Latest(s'.subs, p) == Latest(s.subs, p)
  {
    hide Latest, ReceiptOf;
    var l := Latest(s.subs, p);
    if l.Some? {
      assert InRepo(s, l.value, p);
      assert forall y :: y in s'.subs && s'.subs[y].repo == p ==> InRepo(s', y, p) && InRepo(s, y, p);
      LatestIs(s'.subs, p, l.value);
    } else {
      assert forall y :: y in s'.subs && s'.subs[y].repo == p ==> InRepo(s', y, p) && InRepo(s, y, p);
      LatestNone(s', p);
    }
  }

  lemma QuietNewest(s: Db, s': Db, p: Id, e: Id)
    requires Quiet(s, s', p) && EventsKept(s, s') && Newest(s', p, e)
    ensures Newest(s, p, e) && s'.events[e] == s.events[e]
  {
    assert ReceiptOf(s, p, e);
    forall f | ReceiptOf(s, p, f)
      ensures s.events[f].receivedAt <= s.events[e].receivedAt
    {
      assert ReceiptOf(s', p, f);
    }
  }

  lemma QuietAgrees(s: Db, s': Db, p: Id)
    requires Quiet(s, s', p) && Extends(s, s') && Agrees(s, p)
    ensures Agrees(s', p)
  {
    hide Latest, Newest, RunsKept, ReposKept, EventsKept;
    QuietLatest(s, s', p);
    forall e | Newest(s', p, e)
      ensures e in s'.events && Carries(s', Choice(s', p), s'.events[e].sha)
    {
      QuietNewest(s, s', p, e);
      NewestStored(s', p);
      NewestStored(s, p);
    }
  }

  ghost predicate SameTables(s: Db, s': Db) {
    s'.events == s.events && s'.subs == s.subs && s'.repos == s.repos
  }

  lemma TablesQuiet(s: Db, s': Db, p: Id)
    requires p in s.repos && SameTables(s, s')
    ensures Quiet(s, s', p)
  {
  }

  lemma FlagQuiet(s: Db, q: Id, p: Id)
    requires p in s.repos
    ensures Quiet(s, FlagReview(s, q), p)
  {
  }

  lemma QuietThen(s: Db, s1: Db, s2: Db, p: Id)
    requires Quiet(s, s1, p) && Quiet(s1, s2, p)
    ensures Quiet(s, s2, p)
  {
    hide ReceiptOf, InRepo;
  }

  lemma SelectQuiet(s: Db, event: Id, id: Id, p: Id)
    requires References(s) && Fresh(s, id) && p in s.repos && !(event in s.events && s.events[event].repo == p)
    ensures Quiet(s, Submissions.Select(s, event, id), p)
  {
    hide MadeFrom;
  }

  lemma FreezeAgrees(s: Db, p: Id)
    requires p in s.repos && !s.repos[p].closed && Due(s, s.repos[p]) && Agrees(s, p)
    ensures Agrees(Submissions.Close(s, p), p)
  {
    hide Latest, Newest, Submissions.Close;
    CloseFrame(s, p);
    SameNewest(s, Submissions.Close(s, p), p);
  }

  lemma RecordQuiet(s: Db, op: Op, p: Id)
    requires References(s) && Enabled(s, op) && op.Record? && p in s.repos
    requires op.p != p || !Recordable(s, op.p, op.sha, op.source) || !Eligible(s.repos[p], op.received, op.source)
    ensures Quiet(s, Apply(s, op), p)
  {
    hide Apply, Enabled, Receive, Delivered, References, Quiet, Eligible;
    if Recordable(s, op.p, op.sha, op.source) {
      RecordIs(s, op);
      var s1 := Receive(s, op.p, op.sha, op.received, op.source, op.event, op.sub);
      ReceiveQuiet(s, op.p, op.sha, op.received, op.source, op.event, op.sub, p);
      TablesThen(s, s1, Apply(s, op), p);
    } else {
      RecordRefused(s, op);
      TablesQuiet(s, s, p);
    }
  }

  lemma RecordRefused(s: Db, op: Op)
    requires Enabled(s, op) && op.Record? && !Recordable(s, op.p, op.sha, op.source)
    ensures Apply(s, op) == s
  {
    hide FillsSlots, Delivered, Receive;
  }

  lemma TablesThen(s: Db, s1: Db, s2: Db, p: Id)
    requires Quiet(s, s1, p) && SameTables(s1, s2)
    ensures Quiet(s, s2, p)
  {
    assert forall e :: ReceiptOf(s1, p, e) <==> ReceiptOf(s2, p, e);
    assert forall x :: InRepo(s1, x, p) <==> InRepo(s2, x, p);
  }

  lemma LogQuiet(s: Db, q: Id, sha: string, t: int, source: EventSource, event: Id, p: Id)
    requires References(s) && p in s.repos && q in s.repos && Fresh(s, event)
    requires q != p || !Eligible(s.repos[p], t, source)
    ensures Quiet(s, Log(s, q, sha, t, source, event), p)
  {
    hide Eligible;
  }

  lemma RegisterQuiet(s: Db, event: Id, sub: Id, p: Id)
    requires p in s.repos && event in s.events && s.events[event].repo != p && sub !in s.subs
    ensures Quiet(s, Register(s, event, sub), p)
  {
  }

  lemma ReceiveQuiet(s: Db, q: Id, sha: string, t: int, source: EventSource, event: Id, sub: Id, p: Id)
    requires References(s) && p in s.repos && q in s.repos && Fresh(s, event) && Fresh(s, sub)
    requires q != p || !Eligible(s.repos[p], t, source)
    ensures Quiet(s, Receive(s, q, sha, t, source, event, sub), p)
  {
    hide Eligible, RepeatsLatest, Quiet, Register, FlagReview;
    var s1 := Log(s, q, sha, t, source, event);
    LogQuiet(s, q, sha, t, source, event, p);
    FlagQuiet(s1, q, p);
    QuietThen(s, s1, FlagReview(s1, q), p);
    if q != p {
      RegisterQuiet(s1, event, sub, p);
      QuietThen(s, s1, Register(s1, event, sub), p);
    }
  }

  // ---- over runs ----

  predicate RecordsIn(op: Op, p: Id) {
    op.Record? && op.p == p
  }

  /** Every receipt of `p` along the run that counts comes in order. */
  ghost predicate OrderedRun(s: Db, ops: seq<Op>, p: Id)
    requires Legal(s, ops)
    decreases |ops|
  {
    ops != [] ==>
      && (RecordsIn(ops[0], p) && Recordable(s, ops[0].p, ops[0].sha, ops[0].source)
          && Eligible(s.repos[p], ops[0].received, ops[0].source) ==>
            InOrder(s, p, ops[0].sha, ops[0].received, ops[0].sub))
      && OrderedRun(Apply(s, ops[0]), ops[1..], p)
  }

  lemma RequestAgrees(s: Db, op: Op, p: Id)
    requires References(s) && Receipts(s) && Enabled(s, op) && op.Request? && p !in s.repos
    ensures Agrees(Apply(s, op), p)
  {
    hide Latest;
    assert forall e :: !ReceiptOf(Apply(s, op), p, e);
  }

  /** Only a request creates a repository. */
  lemma NotYet(s: Db, op: Op, p: Id)
    requires Enabled(s, op) && !op.Request? && p !in s.repos
    ensures p !in Apply(s, op).repos
  {
    hide Apply, Enabled, RolloutTo, Queue.FailPermanently, Submissions.Record, Submissions.Close;
    hide Submissions.Extend, Submissions.Select, Grading.Commit, Latest;
    StepIs(s, op);
    if op.Close? {
      CloseFrame(s, op.p);
    } else if op.Record? {
      RecordCreates(s, op, p);
    } else if op.FailPermanently? || op.Commit? {
      FlagsCreate(s, op, p);
    } else if op.Select? || op.Extend? || op.Rollout? {
      RowsCreate(s, op, p);
    } else {
      FrameOf(s, op);
    }
  }

  lemma RecordCreates(s: Db, op: Op, p: Id)
    requires op.Record? && p !in s.repos
    ensures p !in Submissions.Record(s, op.p, op.sha, op.received, op.source, op.event, op.sub, op.picks).repos
  {
    hide ScheduleSnapshots, Delivered, Eligible, RepeatsLatest;
    if Recordable(s, op.p, op.sha, op.source) {
      ScheduleFrame(Receive(s, op.p, op.sha, op.received, op.source, op.event, op.sub), op.p, op.picks);
    }
  }

  lemma FlagsCreate(s: Db, op: Op, p: Id)
    requires p !in s.repos
    ensures op.FailPermanently? ==> p !in Queue.FailPermanently(s, op.g).repos
    ensures op.Commit? ==> p !in Grading.Commit(s, op.ticket).repos
  {
    hide Holds, Decide, WithResult;
  }

  lemma RowsCreate(s: Db, op: Op, p: Id)
    requires p !in s.repos
    ensures op.Select? ==> p !in Submissions.Select(s, op.event, op.id).repos
    ensures op.Extend? ==> p !in Submissions.Extend(s, op.p, op.deadline).repos
    ensures op.Rollout? ==> p !in RolloutTo(s, op.p, op.published).repos
  {
    hide MadeFrom, Merged;
  }

  /** Whatever happens, a repository stays in agreement unless a receipt comes out of order or an
      instructor decides otherwise. */
  lemma AgreementKept(s: Db, op: Op, p: Id)
    requires Inv(s) && Enabled(s, op) && Agrees(s, p) && !SelectsIn(s, op, p)
    requires RecordsIn(op, p) && Recordable(s, op.p, op.sha, op.source)
             && Eligible(s.repos[p], op.received, op.source) ==>
               InOrder(s, p, op.sha, op.received, op.sub)
    ensures Agrees(Apply(s, op), p)
  {
    hide Inv, Kept, Extends, References, Receipts, Enabled, Apply, Agrees, InOrder, Delivered, Eligible, Quiet;
    hide Submissions.Close, Submissions.Select;
    Open(s);
    var s' := Apply(s, op);
    if p !in s.repos {
      if op.Request? {
        RequestAgrees(s, op, p);
      } else {
        NotYet(s, op, p);
        Absent(s', p);
      }
    } else if RecordsIn(op, p) && Recordable(s, op.p, op.sha, op.source)
              && Eligible(s.repos[p], op.received, op.source) {
      RecordAgreesIff(s, op);
    } else if op.Close? && op.p == p && !s.repos[p].closed && Due(s, s.repos[p]) {
      FreezeAgrees(s, p);
      StepIs(s, op);
    } else {
      OthersQuiet(s, op, p);
      Step(s, op);
      KeptInv(s, s');
      QuietAgrees(s, s', p);
    }
  }

  lemma Absent(s: Db, p: Id)
    requires p !in s.repos
    ensures Agrees(s, p)
  {
  }

  lemma OthersQuiet(s: Db, op: Op, p: Id)
    requires References(s) && Enabled(s, op) && p in s.repos && !SelectsIn(s, op, p)
    requires RecordsIn(op, p) ==>
               !Recordable(s, op.p, op.sha, op.source) || !Eligible(s.repos[p], op.received, op.source)
    requires op.Close? && op.p == p ==> s.repos[p].closed || !Due(s, s.repos[p])
    ensures Quiet(s, Apply(s, op), p)
  {
    hide References, Enabled, Apply, Delivered, Eligible, Quiet, Submissions.Select, Submissions.Retain, Latest, Merged;
    NotRequested(s, op, p);
    if op.Select? {
      SelectFresh(s, op);
      SelectQuiet(s, op.event, op.id, p);
      StepIs(s, op);
    } else if op.Record? {
      RecordQuiet(s, op, p);
    } else if op.Retain? {
      StepIs(s, op);
      RetainQuiet(s, op.x, op.digest, p);
    } else {
      RepoFateOf(s, op, p);
      FrameOf(s, op);
      FatedQuiet(s, op, Apply(s, op), p);
    }
  }

  lemma RetainQuiet(s: Db, x: Id, digest: string, p: Id)
    requires p in s.repos
    ensures Quiet(s, Submissions.Retain(s, x, digest), p)
  {
  }

  lemma FatedQuiet(s: Db, op: Op, s': Db, p: Id)
    requires Fated(s, op, p, s') && s'.events == s.events && s'.subs == s.subs && !Freezes(s, op, p)
             && !SelectsIn(s, op, p)
    ensures Quiet(s, s', p)
  {
    hide Latest, Merged;
  }

  lemma SelectFresh(s: Db, op: Op)
    requires Enabled(s, op) && op.Select?
    ensures Fresh(s, op.id)
  {
  }

  /** As long as the receipts of a repository come in order and no instructor overrides, its choice
      is the commit of its last eligible receipt, before and after closing. */
  lemma {:induction false} LastReceiptWins(s: Db, ops: seq<Op>, p: Id)
    requires Inv(s) && Legal(s, ops) && Agrees(s, p) && OrderedRun(s, ops, p) && NoSelection(s, ops, p)
    ensures Agrees(Exec(s, ops), p)
    decreases |ops|
  {
    hide Inv, Kept, Extends, Enabled, Apply, Legal, Agrees, InOrder, SelectsIn, RecordsIn, Delivered, Eligible;
    if ops != [] {
      Unfold(s, ops);
      Step(s, ops[0]);
      KeptInv(s, Apply(s, ops[0]));
      AgreementKept(s, ops[0], p);
      LastReceiptWins(Apply(s, ops[0]), ops[1..], p);
    }
  }

  // ---- receipts in increasing order of time ----

  /** Receipts of `p` are recorded in strictly increasing order of receipt time. */
  ghost predicate Increasing(ops: seq<Op>, p: Id) {
    forall i, j :: 0 <= i < j < |ops| && RecordsIn(ops[i], p) && RecordsIn(ops[j], p) ==>
             ops[i].received < ops[j].received
  }

  /** Nothing eligible was received for `p` at `t` or later. */
  ghost predicate Before(s: Db, p: Id, t: int) {
    forall e :: ReceiptOf(s, p, e) ==> s.events[e].receivedAt < t
  }

  ghost predicate AllAhead(s: Db, ops: seq<Op>, p: Id) {
    forall i :: 0 <= i < |ops| && RecordsIn(ops[i], p) ==> Before(s, p, ops[i].received)
  }

  lemma BeforeInOrder(s: Db, p: Id, sha: string, t: int, sub: Id)
    requires Before(s, p, t)
    ensures InOrder(s, p, sha, t, sub)
  {
    hide Latest;
  }

  ghost predicate EventsFrom(s: Db, op: Op, s': Db) {
    forall e :: e in s'.events ==>
      || (e in s.events && s'.events[e] == s.events[e])
      || (op.Record? && s'.events[e].repo == op.p && s'.events[e].receivedAt == op.received)
  }

  lemma ReceiveEvents(s: Db, op: Op)
    requires op.Record? && op.p in s.repos
    ensures EventsFrom(s, op, Receive(s, op.p, op.sha, op.received, op.source, op.event, op.sub))
  {
    hide Eligible, RepeatsLatest;
  }

  /** Events come from receipts only. */
  lemma EventsOf(s: Db, op: Op)
    requires Enabled(s, op)
    ensures EventsFrom(s, op, Apply(s, op))
  {
    hide Apply, Enabled, Receive, Delivered;
    if op.Select? {
      StepIs(s, op);
      SelectFrame(s, op.event, op.id);
    } else if !op.Record? {
      FrameOf(s, op);
    } else if Recordable(s, op.p, op.sha, op.source) {
      RecordIs(s, op);
      ReceiveEvents(s, op);
    } else {
      RecordRefused(s, op);
    }
  }

  lemma StaysBefore(s: Db, op: Op, p: Id, t: int)
    requires Enabled(s, op) && Before(s, p, t) && (RecordsIn(op, p) ==> op.received < t)
    ensures Before(Apply(s, op), p, t)
  {
    hide Enabled, Apply;
    EventsOf(s, op);
    forall e | ReceiptOf(Apply(s, op), p, e)
      ensures Apply(s, op).events[e].receivedAt < t
    {
      assert e in s.events && Apply(s, op).events[e] == s.events[e] ==> ReceiptOf(s, p, e);
    }
  }

  lemma {:induction false} IncreasingIsOrdered(s: Db, ops: seq<Op>, p: Id)
    requires Legal(s, ops) && Increasing(ops, p) && AllAhead(s, ops, p)
    ensures OrderedRun(s, ops, p)
    decreases |ops|
  {
    hide Enabled, Apply, Legal, InOrder, Delivered, Eligible, Before;
    if ops != [] {
      Unfold(s, ops);
      var s1 := Apply(s, ops[0]);
      if RecordsIn(ops[0], p) {
        BeforeInOrder(s, p, ops[0].sha, ops[0].received, ops[0].sub);
      }
      forall i | 0 <= i < |ops[1..]| && RecordsIn(ops[1..][i], p)
        ensures Before(s1, p, ops[1..][i].received)
      {
        assert ops[1..][i] == ops[i + 1];
        StaysBefore(s, ops[0], p, ops[i + 1].received);
      }
      IncreasingIsOrdered(s1, ops[1..], p);
    }
  }

  /** From an empty database on: if the receipts of a repository are recorded in increasing order of
      receipt time and no instructor overrides, a closed repository's final submission has the commit
      of its last eligible receipt. */
  lemma FinalIsLastReceipt(ops: seq<Op>, p: Id, e: Id)
    requires Legal(EMPTY, ops) && Increasing(ops, p) && NoSelection(EMPTY, ops, p)
    requires var s := Exec(EMPTY, ops); p in s.repos && s.repos[p].closed && Newest(s, p, e)
    ensures var s := Exec(EMPTY, ops);
            s.repos[p].final.Some? && s.repos[p].final.value in s.subs
            && s.subs[s.repos[p].final.value].sha == s.events[e].sha
  {
    hide Inv, Extends, Legal, Exec, OrderedRun, NoSelection, Newest;
    InitiallyInv();
    IncreasingIsOrdered(EMPTY, ops, p);
    LastReceiptWins(EMPTY, ops, p);
  }

  // ---- the window ----

  /** Recording this eligible receipt of `p` made submission `x`. */
  ghost predicate MadeByReceipt(s: Db, op: Op, p: Id, x: Id) {
    && op.Record? && op.p == p && op.sub == x
    && Recordable(s, p, op.sha, op.source) && Eligible(s.repos[p], op.received, op.source)
  }

  /** An instructor's selection made submission `x`. */
  ghost predicate MadeBySelection(s: Db, op: Op, p: Id, x: Id) {
    SelectsIn(s, op, p) && op.id == x && p in s.repos && s.repos[p].closed
  }

  ghost predicate CopiesReceipt(op: Op, x: Submission) {
    op.Record? ==> x.sha == op.sha && x.receivedAt == op.received && x.event == op.event
  }

  lemma ReceiptMakes(s: Db, op: Op, p: Id, x: Id)
    requires References(s) && Enabled(s, op) && op.Record? && op.p == p && Recordable(s, p, op.sha, op.source)
    requires Eligible(s.repos[p], op.received, op.source) && InRepo(Apply(s, op), x, p) && !InRepo(s, x, p)
    ensures op.sub == x && CopiesReceipt(op, Apply(s, op).subs[x])
  {
    hide References, Enabled, Apply, Delivered, Eligible, Latest;
    RecordIs(s, op);
    RegistersIn(s, p, op.sha, op.received, op.source, op.event, op.sub);
  }

  lemma RegistersIn(s: Db, p: Id, sha: string, t: int, source: EventSource, event: Id, sub: Id)
    requires p in s.repos
    ensures var s' := Receive(s, p, sha, t, source, event, sub);
            s'.subs == s.subs || s'.subs == s.subs[sub := Submission(p, event, sha, t, None)]
  {
    hide Eligible, RepeatsLatest;
  }

  lemma SelectionMakes(s: Db, op: Op, p: Id, x: Id)
    requires op.Select? && Enabled(s, op) && InRepo(Apply(s, op), x, p) && !InRepo(s, x, p)
    ensures MadeBySelection(s, op, p, x)
  {
    hide MadeFrom;
  }

  /** A submission comes from an eligible receipt or from a selection, and from nothing else. */
  lemma MadeBy(s: Db, op: Op, p: Id, x: Id)
    requires Inv(s) && Enabled(s, op) && InRepo(Apply(s, op), x, p) && !InRepo(s, x, p)
    ensures MadeByReceipt(s, op, p, x) || MadeBySelection(s, op, p, x)
    ensures CopiesReceipt(op, Apply(s, op).subs[x])
  {
    hide Inv, Enabled, Apply, References, Delivered, Eligible, MadeBySelection, Quiet, CopiesReceipt;
    Open(s);
    if op.Select? {
      SelectionMakes(s, op, p, x);
      NoReceipt(op, Apply(s, op).subs[x]);
    } else if op.Record? && Recordable(s, op.p, op.sha, op.source) {
      if op.p == p && Eligible(s.repos[p], op.received, op.source) {
        ReceiptMakes(s, op, p, x);
      } else {
        OtherReceipt(s, op, p, x);
      }
    } else if op.Record? {
      RecordRefused(s, op);
    } else if op.Retain? {
      StepIs(s, op);
      RetainMakesNone(s, op.x, op.digest, p, x);
    } else {
      FrameOf(s, op);
    }
  }

  lemma NoReceipt(op: Op, x: Submission)
    requires !op.Record?
    ensures CopiesReceipt(op, x)
  {
  }

  lemma OtherReceipt(s: Db, op: Op, p: Id, x: Id)
    requires Enabled(s, op) && op.Record? && Recordable(s, op.p, op.sha, op.source) && !InRepo(s, x, p)
    requires op.p != p || !Eligible(s.repos[p], op.received, op.source)
    ensures !InRepo(Apply(s, op), x, p)
  {
    hide Enabled, Apply, Delivered, Eligible, RepeatsLatest;
    RecordIs(s, op);
  }

  lemma RetainMakesNone(s: Db, y: Id, digest: string, p: Id, x: Id)
    requires !InRepo(s, x, p)
    ensures !InRepo(Submissions.Retain(s, y, digest), x, p)
  {
  }

  /** Step `i` of the run made submission `x` of `p`, in the window in force at that moment. */
  ghost predicate MadeAt(s: Db, ops: seq<Op>, i: nat, p: Id, x: Id, row: Submission) {
    && i < |ops| && Legal(s, ops[..i])
    && (MadeByReceipt(Exec(s, ops[..i]), ops[i], p, x) || MadeBySelection(Exec(s, ops[..i]), ops[i], p, x))
    && CopiesReceipt(ops[i], row)
  }

  lemma ReceiptKept(s: Db, s': Db, op: Op, x: Id)
    requires x in s.subs && Extends(s, s') && CopiesReceipt(op, s.subs[x])
    ensures x in s'.subs && CopiesReceipt(op, s'.subs[x])
  {
    hide RunsKept, ReposKept, EventsKept;
  }

  lemma {:induction false} Origin(s: Db, ops: seq<Op>, p: Id, x: Id) returns (i: nat)
    requires Inv(s) && Legal(s, ops) && InRepo(Exec(s, ops), x, p) && !InRepo(s, x, p)
    ensures MadeAt(s, ops, i, p, x, Exec(s, ops).subs[x])
    decreases |ops|
  {
    hide Inv, Kept, Extends, Enabled, Apply, Legal, MadeByReceipt, MadeBySelection, CopiesReceipt;
    Unfold(s, ops);
    var s1 := Apply(s, ops[0]);
    Step(s, ops[0]);
    KeptInv(s, s1);
    if InRepo(s1, x, p) {
      i := 0;
      MadeBy(s, ops[0], p, x);
      Safe(s1, ops[1..]);
      ReceiptKept(s1, Exec(s, ops), ops[0], x);
      assert ops[..0] == [];
      NoSteps(s);
    } else {
      var j := Origin(s1, ops[1..], p, x);
      i := j + 1;
      assert ops[..i][0] == ops[0] && ops[..i][1..] == ops[1..][..j];
      Fold(s, ops[..i]);
    }
  }

  /** From an empty database on, every submission was made at some step, either of a receipt
      recorded between opening and the deadline in force at that very step, or by an instructor's
      selection for the closed repository. */
  lemma SubmittedInWindow(ops: seq<Op>, p: Id, x: Id)
    requires Legal(EMPTY, ops) && InRepo(Exec(EMPTY, ops), x, p)
    ensures exists i: nat :: MadeAt(EMPTY, ops, i, p, x, Exec(EMPTY, ops).subs[x])
  {
    hide Inv, Legal, Exec, MadeAt;
    InitiallyInv();
    var i := Origin(EMPTY, ops, p, x);
  }
}
