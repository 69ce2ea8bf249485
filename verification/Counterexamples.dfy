/** Runs from an empty database that show where an expectation about the platform fails. */
module Counterexamples {
  import opened Wrappers
  import opened Text
  import opened Protocol
  import opened Database
  import opened Queue
  import opened Submissions
  import opened Lifecycle
  import opened Theorems
  import opened Frames
  import opened Fetching
  import opened Selection

  // ---- a delayed receipt becomes final ----

  /** The tables a receipt depends on, whatever the task table holds. */
  ghost predicate Stands(s: Db, now: int, repos: map<Id, Database.Repo>, events: map<Id, Event>,
                         subs: map<Id, Submission>, issued: set<Id>)
  {
    s.now == now && s.repos == repos && s.events == events && s.subs == subs && s.issued == issued
  }

  function Student(v: Revision): Database.Repo {
    Repo(0, 0, v, v, false, None, None, false)
  }

  /** The window of the exercise holds all three receipts. */
  predicate OpenEnough(v: Revision) {
    v.assignment.opensAt <= 0 && 5 <= v.assignment.deadline
  }

  lemma Requested(v: Revision)
    requires OpenEnough(v)
    ensures var op := Op.Request(0, 0, 0, v);
            && Enabled(EMPTY, op) && Stands(Apply(EMPTY, op), 0, map[0 := Student(v)], map[], map[], {0})
  {
  }

  lemma Ticked(s: Db, n: nat)
    ensures Enabled(s, Op.Tick(n)) && Apply(s, Op.Tick(n)) == s.(now := s.now + n)
  {
  }

  /** One webhook receipt, with any answer of the slot query. */
  lemma Recorded(s: Db, sha: string, t: int, delivery: Id, event: Id, sub: Id) returns (op: Op)
    requires Recordable(s, 0, sha, Webhook(delivery)) && Fresh(s, event) && Fresh(s, sub) && event != sub
    ensures op.Record? && Enabled(s, op)
    ensures var s1 := Receive(s, 0, sha, t, Webhook(delivery), event, sub);
            Stands(Apply(s, op), s1.now, s1.repos, s1.events, s1.subs, s1.issued)
  {
    hide Receive, FillsSlots, Delivered, ScheduleSnapshots;
    var s1 := Receive(s, 0, sha, t, Webhook(delivery), event, sub);
    var picks := PicksExist(s1, 0);
    op := Op.Record(0, sha, t, Webhook(delivery), event, sub, picks);
    ScheduleFrame(s1, 0, picks);
  }

  lemma FirstReceived(s: Db, v: Revision, x: string)
    requires OpenEnough(v) && Stands(s, 5, map[0 := Student(v)], map[], map[], {0}) && ValidHex(x, 40)
    ensures Recordable(s, 0, x, Webhook(0))
    ensures var s1 := Receive(s, 0, x, 1, Webhook(0), 1, 2);
            Stands(s1, 5, map[0 := Student(v)], map[1 := Event(0, x, 1, Webhook(0), true)],
                   map[2 := Submission(0, 1, x, 1, None)], {0, 1, 2})
  {
    hide Latest, ValidHex;
    LatestNone(s, 0);
  }

  lemma Repeated(s: Db, v: Revision, x: string)
    requires OpenEnough(v) && ValidHex(x, 40)
    requires Stands(s, 5, map[0 := Student(v)], map[1 := Event(0, x, 1, Webhook(0), true)],
                    map[2 := Submission(0, 1, x, 1, None)], {0, 1, 2})
    ensures Recordable(s, 0, x, Webhook(1))
    ensures var s1 := Receive(s, 0, x, 5, Webhook(1), 3, 4);
            Stands(s1, 5, map[0 := Student(v)],
                   map[1 := Event(0, x, 1, Webhook(0), true), 3 := Event(0, x, 5, Webhook(1), true)], s.subs,
                     {0, 1, 2, 3})
  {
    hide Latest, ValidHex;
    LatestIs(s.subs, 0, 2);
  }

  lemma Delayed(s: Db, v: Revision, x: string, y: string)
    requires OpenEnough(v) && ValidHex(y, 40) && x != y
    requires Stands(s, 5, map[0 := Student(v)],
                    map[1 := Event(0, x, 1, Webhook(0), true), 3 := Event(0, x, 5, Webhook(1), true)],
                    map[2 := Submission(0, 1, x, 1, None)], {0, 1, 2, 3})
    ensures Recordable(s, 0, y, Webhook(2))
    ensures var s1 := Receive(s, 0, y, 3, Webhook(2), 5, 6);
            Stands(s1, 5, map[0 := Student(v)], s.events[5 := Event(0, y, 3, Webhook(2), true)],
                   map[2 := Submission(0, 1, x, 1, None), 6 := Submission(0, 5, y, 3, None)], {0, 1, 2, 3, 5, 6})
  {
    hide Latest, ValidHex;
    LatestIs(s.subs, 0, 2);
  }

  lemma ClosedOn(s: Db, v: Revision, x: string, y: string)
    requires x != y && s.now > v.assignment.deadline && s.repos == map[0 := Student(v)]
    requires s.events == map[1 := Event(0, x, 1, Webhook(0), true), 3 := Event(0, x, 5, Webhook(1), true),
                             5 := Event(0, y, 3, Webhook(2), true)]
    requires s.subs == map[2 := Submission(0, 1, x, 1, None), 6 := Submission(0, 5, y, 3, None)]
    ensures Enabled(s, Op.Close(0))
    ensures var s' := Apply(s, Op.Close(0));
            && 0 in s'.repos && s'.repos[0].closed && s'.repos[0].final == Some(6) && 6 in s'.subs
            && s'.subs[6].sha == y
            && Newest(s', 0, 3) && s'.events[3].sha == x && !Agrees(s', 0)
  {
    hide Latest, Submissions.Close;
    CloseFrame(s, 0);
    LatestIs(s.subs, 0, 6);
    assert Newest(Apply(s, Op.Close(0)), 0, 3);
  }

  /** Commit `x` is received at 1 and again at 5, and a receipt of `y` from time 3 arrives after
      them. The repeated receipt made no submission, so `y` is frozen as the final choice although
      the last eligible receipt is of `x`. */
  lemma DelayedReceiptWins(v: Revision, x: string, y: string) returns (ops: seq<Op>)
    requires OpenEnough(v) && ValidHex(x, 40) && ValidHex(y, 40) && x != y
    ensures Legal(EMPTY, ops)
    ensures var s := Exec(EMPTY, ops);
            && 0 in s.repos && s.repos[0].closed && s.repos[0].final == Some(6) && 6 in s.subs && s.subs[6].sha == y
            && Newest(s, 0, 3) && s.events[3].sha == x && !Agrees(s, 0)
  {
    hide Enabled, Apply, Legal, Exec, Receive, Latest, Newest, Agrees, ValidHex, Recordable, OpenEnough, Student;
    NoSteps(EMPTY);
    Requested(v);
    OneMoreStep(EMPTY, [], Op.Request(0, 0, 0, v));
    ops := [] + [Op.Request(0, 0, 0, v)];
    Ticked(Exec(EMPTY, ops), 5);
    OneMoreStep(EMPTY, ops, Op.Tick(5));
    ops := ops + [Op.Tick(5)];
    FirstReceived(Exec(EMPTY, ops), v, x);
    var op := Recorded(Exec(EMPTY, ops), x, 1, 0, 1, 2);
    OneMoreStep(EMPTY, ops, op);
    ops := ops + [op];
    Repeated(Exec(EMPTY, ops), v, x);
    op := Recorded(Exec(EMPTY, ops), x, 5, 1, 3, 4);
    OneMoreStep(EMPTY, ops, op);
    ops := ops + [op];
    Delayed(Exec(EMPTY, ops), v, x, y);
    op := Recorded(Exec(EMPTY, ops), y, 3, 2, 5, 6);
    OneMoreStep(EMPTY, ops, op);
    ops := ops + [op];
    var wait := Past(v);
    Ticked(Exec(EMPTY, ops), wait);
    OneMoreStep(EMPTY, ops, Op.Tick(wait));
    ops := ops + [Op.Tick(wait)];
    ClosedOn(Exec(EMPTY, ops), v, x, y);
    OneMoreStep(EMPTY, ops, Op.Close(0));
    ops := ops + [Op.Close(0)];
  }

  lemma Past(v: Revision) returns (wait: nat)
    requires OpenEnough(v)
    ensures wait > v.assignment.deadline
  {
    wait := v.assignment.deadline + 1;
  }
}
