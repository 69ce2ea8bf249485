/** The grading revision of a repository over any sequence of publications. */
module Rollouts {
  import opened Wrappers
  import opened Protocol
  import opened Database
  import opened Lifecycle
  import opened Invariant
  import opened Preservation
  import opened ControlSteps
  import opened Theorems
  import opened Results
  import opened Frames
  import Encoding
  import Exercises
  import Text

  /** Only a rollout changes the grading revision, and it starts from the provisioning revision. */
  lemma GradingStep(s: Db, op: Op, p: Id)
    requires Inv(s) && Enabled(s, op) && p in s.repos
    ensures var s' := Apply(s, op);
            && p in s'.repos
            && s'.repos[p].gradingRevision ==
               if op.Rollout? && op.p == p then Merged(s.repos[p].revision, op.published)
                  else s.repos[p].gradingRevision
  {
    hide Inv, Enabled, Apply, References, Merged, Latest;
    Open(s);
    NotRequested(s, op, p);
    RepoFateOf(s, op, p);
  }

  /** The last revision rolled out to `p` along a run. */
  ghost function RolledOut(ops: seq<Op>, p: Id): Option<Revision> {
    if ops == [] then None
    else if ops[|ops| - 1].Rollout? && ops[|ops| - 1].p == p then Some(ops[|ops| - 1].published)
    else RolledOut(ops[..|ops| - 1], p)
  }

  lemma {:induction false} RolledOutTail(ops: seq<Op>, p: Id)
    requires ops != []
    ensures RolledOut(ops, p) ==
            if RolledOut(ops[1..], p).Some? then RolledOut(ops[1..], p)
            else if ops[0].Rollout? && ops[0].p == p then Some(ops[0].published) else None
    decreases |ops|
  {
    if |ops| > 1 {
      var front := ops[..|ops| - 1];
      RolledOutTail(front, p);
      assert front[1..] == ops[1..][..|ops| - 2];
    }
  }

  /** Rollouts never compound: whatever was published before and whatever happens besides, a
      repository is graded by its own provisioning revision merged with the last rolled-out one. */
  lemma {:induction false} NeverCompounds(s: Db, ops: seq<Op>, p: Id)
    requires Inv(s) && Legal(s, ops) && p in s.repos
    ensures var s' := Exec(s, ops);
            && p in s'.repos && s'.repos[p].revision == s.repos[p].revision
            && s'.repos[p].gradingRevision ==
               if RolledOut(ops, p).Some? then Merged(s.repos[p].revision, RolledOut(ops, p).value)
                  else s.repos[p].gradingRevision
    decreases |ops|
  {
    hide Inv, Kept, Enabled, Apply, Legal, RunsKept, SubmissionsKept, EventsKept, Merged, RolledOut;
    if ops == [] {
      NothingRolledOut(p);
    } else {
      Unfold(s, ops);
      var s1 := Apply(s, ops[0]);
      Step(s, ops[0]);
      KeptInv(s, s1);
      RolledOutTail(ops, p);
      GradingStep(s, ops[0], p);
      NeverCompounds(s1, ops[1..], p);
    }
  }

  lemma NothingRolledOut(p: Id)
    ensures RolledOut([], p) == None
  {
  }

  // ---- publications are runs of rollouts ----

  /** The repositories of the grading lifecycle as exercise publication sees them. */
  ghost function Pins(s: Db): map<Id, Exercises.Pinned> {
    map p | p in s.repos :: Exercises.Pinned(s.repos[p].assignment, s.repos[p].revision, s.repos[p].gradingRevision)
  }

  /** What rolling out `plan[p]` to every repository `p` in the plan leaves of a row. */
  function Rolled(r: Database.Repo, p: Id, plan: map<Id, Revision>): Database.Repo {
    if p in plan then r.(gradingRevision := Merged(r.revision, plan[p])) else r
  }

  ghost predicate RollsOut(s: Db, plan: map<Id, Revision>, s': Db) {
    && s' == s.(repos := s'.repos) && s'.repos.Keys == s.repos.Keys
    && forall p :: p in s.repos ==> s'.repos[p] == Rolled(s.repos[p], p, plan)
  }

  /** The run consists of the rollouts in the plan. */
  ghost predicate OnlyRollouts(ops: seq<Op>, plan: map<Id, Revision>) {
    |ops| == |plan| && forall i :: 0 <= i < |ops| ==>
      ops[i].Rollout? && ops[i].p in plan && plan[ops[i].p] == ops[i].published
  }

  lemma RolloutStep(s: Db, p: Id, v: Revision)
    requires p in s.repos
    ensures var op := Op.Rollout(p, v);
            Enabled(s, op) && Apply(s, op) ==
              s.(repos := s.repos[p := s.repos[p].(gradingRevision := Merged(s.repos[p].revision, v))])
  {
    hide Merged;
  }

  lemma NothingToDo(s: Db)
    ensures OnlyRollouts([], map[]) && RollsOut(s, map[], s)
  {
  }

  lemma OneMoreRollout(s: Db, plan: map<Id, Revision>, p: Id, more: seq<Op>, s1: Db, s': Db)
    requires p in plan && p in s.repos && OnlyRollouts(more, plan - {p}) && RollsOut(s1, plan - {p}, s')
    requires s1 == s.(repos := s.repos[p := s.repos[p].(gradingRevision := Merged(s.repos[p].revision, plan[p]))])
    ensures OnlyRollouts([Op.Rollout(p, plan[p])] + more, plan) && RollsOut(s, plan, s')
  {
    hide Merged;
    SizeWithout(plan, p);
    assert forall q :: q in s.repos ==> q in s1.repos.Keys;
  }

  lemma {:induction false} RolloutRun(s: Db, plan: map<Id, Revision>) returns (ops: seq<Op>)
    requires plan.Keys <= s.repos.Keys
    ensures OnlyRollouts(ops, plan) && Legal(s, ops) && RollsOut(s, plan, Exec(s, ops))
    decreases |plan|
  {
    hide Enabled, Apply, Legal, Exec, Merged, OnlyRollouts, RollsOut;
    if plan == map[] {
      ops := [];
      NoSteps(s);
      NothingToDo(s);
    } else {
      var p :| p in plan;
      assert p in s.repos.Keys;
      var op := Op.Rollout(p, plan[p]);
      RolloutStep(s, p, plan[p]);
      SizeWithout(plan, p);
      var s1 := Apply(s, op);
      var more := RolloutRun(s1, plan - {p});
      ops := [op] + more;
      assert ops[1..] == more;
      Fold(s, ops);
      OneMoreRollout(s, plan, p, more, s1, Exec(s, ops));
    }
  }

  lemma SizeWithout(plan: map<Id, Revision>, p: Id)
    requires p in plan
    ensures |plan - {p}| + 1 == |plan|
  {
    assert (plan - {p}).Keys == plan.Keys - {p};
    assert |(plan - {p}).Keys| == |plan - {p}| && |plan.Keys| == |plan|;
  }

  lemma PinsRolled(s: Db, plan: map<Id, Revision>, s': Db, pins: map<Id, Exercises.Pinned>)
    requires RollsOut(s, plan, s') && pins.Keys == s.repos.Keys
    requires forall p :: p in s.repos ==>
               pins[p] == if p in plan then Pins(s)[p].(grading := Merged(s.repos[p].revision, plan[p])) else Pins(s)[p]
    ensures Pins(s') == pins
  {
    hide Merged;
  }

  /** An accepted publication does to the repositories what a run of rollouts does, one for each
      repository that follows it, and a run of rollouts does nothing else. */
  lemma PublicationIsRun(s: Db, t: Exercises.Tables, p: Exercises.Publication, id: Id, t': Exercises.Tables)
      returns (plan: map<Id, Revision>, ops: seq<Op>)
    requires t.repos == Pins(s) && Exercises.Published(t, p, id, t')
    ensures forall r :: r in plan <==> Exercises.Follows(t, p, r)
    ensures forall r :: r in plan ==> plan[r] == p.revision
    ensures OnlyRollouts(ops, plan) && Legal(s, ops)
    ensures RollsOut(s, plan, Exec(s, ops)) && Pins(Exec(s, ops)) == t'.repos
  {
    hide Legal, Exec, Merged, OnlyRollouts, RollsOut;
    plan := map r | r in t.repos && Exercises.Follows(t, p, r) :: p.revision;
    ops := RolloutRun(s, plan);
    PinsRolled(s, plan, Exec(s, ops), t'.repos);
  }

  ghost predicate FollowsAt(t: Exercises.Tables, ps: seq<Exercises.Publication>, i: int, r: Id) {
    0 <= i < |ps| && Exercises.Follows(t, ps[i], r)
  }

  ghost predicate FollowsOne(t: Exercises.Tables, ps: seq<Exercises.Publication>, r: Id) {
    exists i: int :: FollowsAt(t, ps, i, r)
  }

  ghost function Followed(t: Exercises.Tables, ps: seq<Exercises.Publication>, r: Id): (v: Revision)
    requires FollowsOne(t, ps, r)
    ensures exists i: int :: FollowsAt(t, ps, i, r) && v == ps[i].revision
  {
    var i: int :| FollowsAt(t, ps, i, r);
    ps[i].revision
  }

  /** So does an applied set of publications, with at most one rollout for every repository. */
  lemma SetIsRun(s: Db, t: Exercises.Tables, ps: seq<Exercises.Publication>, t': Exercises.Tables)
      returns (plan: map<Id, Revision>, ops: seq<Op>)
    requires t.repos == Pins(s) && Exercises.ReposAfter(t, ps, |ps|, t')
    ensures forall r :: r in plan ==> exists i: int :: FollowsAt(t, ps, i, r) && plan[r] == ps[i].revision
    ensures OnlyRollouts(ops, plan) && Legal(s, ops)
    ensures RollsOut(s, plan, Exec(s, ops)) && Pins(Exec(s, ops)) == t'.repos
  {
    hide Legal, Exec, Merged, OnlyRollouts, RollsOut, Exercises.Follows;
    plan := map r | r in t.repos && FollowsOne(t, ps, r) :: Followed(t, ps, r);
    ops := RolloutRun(s, plan);
    forall r | r in s.repos
      ensures t'.repos[r] == if r in plan then Pins(s)[r].(grading := Merged(s.repos[r].revision, plan[r]))
              else Pins(s)[r]
    {
      assert Exercises.RepoAfter(t, ps, |ps|, t', r);
      assert forall i :: 0 <= i < |ps| && Exercises.Follows(t, ps[i], r) ==> FollowsAt(t, ps, i, r);
    }
    PinsRolled(s, plan, Exec(s, ops), t'.repos);
  }

  // ---- a refused rollout ----

  lemma RefusedFor(pinned: Revision, published: Revision, reason: string, size: Revision -> nat)
    requires !Text.Blank(reason) && pinned.courseId == published.courseId
             && pinned.assignmentId == published.assignmentId
    requires RevisionValid(published, size) && !RevisionValid(Merged(pinned, published), size)
    ensures var n := Exercises.Name(pinned.courseId, pinned.assignmentId);
            var t := Exercises.Tables(map[n := Exercises.Exercise(0, Some(pinned), false)],
                                      map[0 := Exercises.Pinned(0, pinned, pinned)]);
            var p := Exercises.Publication(published, Some(pinned), false, reason);
            Exercises.Admissible(t, p, size) && !Exercises.Admissible(t, p.(existing := true), size)
  {
    hide RevisionValid, Text.Blank, Merged;
    var n := Exercises.Name(pinned.courseId, pinned.assignmentId);
    var t := Exercises.Tables(map[n := Exercises.Exercise(0, Some(pinned), false)],
                              map[0 := Exercises.Pinned(0, pinned, pinned)]);
    assert Exercises.Follows(t, Exercises.Publication(published, Some(pinned), true, reason), 0);
  }

  /** A publication that is valid in itself is refused for a repository whose definition is valid in
      itself, because their merge is too long; without the rollout it is accepted. */
  lemma RolloutRefused(reason: string) returns (pinned: Revision, published: Revision)
    requires !Text.Blank(reason)
    ensures RevisionValid(pinned, Encoding.JsonLength) && RevisionValid(published, Encoding.JsonLength)
    ensures var n := Exercises.Name(pinned.courseId, pinned.assignmentId);
            var t := Exercises.Tables(map[n := Exercises.Exercise(0, Some(pinned), false)],
                                      map[0 := Exercises.Pinned(0, pinned, pinned)]);
            var p := Exercises.Publication(published, Some(pinned), false, reason);
            Exercises.Admissible(t, p, Encoding.JsonLength)
              && !Exercises.Admissible(t, p.(existing := true), Encoding.JsonLength)
  {
    hide *;
    pinned, published := Encoding.Wide(), Encoding.Long();
    Encoding.MergeRefused();
    Encoding.SameExercise();
    RefusedFor(pinned, published, reason, Encoding.JsonLength);
  }
}
