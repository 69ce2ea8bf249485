/** Atomic exercise publication and explicit rollouts to existing repositories. */
module Exercises {
  import opened Wrappers
  import opened Text
  import opened Protocol

  type Id = nat

  datatype Name = Name(course: string, slug: string)

  datatype Exercise = Exercise(id: Id, current: Option<Revision>, archived: bool)

  /** A student repository: the definition it was provisioned with and the one it is graded by. */
  datatype Pinned = Pinned(exercise: Id, revision: Revision, grading: Revision)

  datatype Publication = Publication(revision: Revision, expected: Option<Revision>, existing: bool, reason: string)
  {
    function Target(): Name {
      Name(revision.courseId, revision.assignmentId)
    }
  }

  /** A course listing as a preview shows it, by slug. */
  datatype CatalogEntry = CatalogEntry(current: Option<Revision>, archived: bool)
  type Listing = map<string, CatalogEntry>

  datatype Tables = Tables(exercises: map<Name, Exercise>, repos: map<Id, Pinned>)

  /** Exercise ids are distinct and repositories belong to exercises. */
  ghost predicate Consistent(t: Tables) {
    && (forall m, n :: m in t.exercises && n in t.exercises && t.exercises[m].id == t.exercises[n].id ==> m == n)
    && (forall r :: r in t.repos ==> exists n :: n in t.exercises && t.exercises[n].id == t.repos[r].exercise)
  }

  predicate Unused(t: Tables, id: Id) {
    forall n :: n in t.exercises ==> t.exercises[n].id != id
  }

  function Current(t: Tables, n: Name): Option<Revision> {
    if n in t.exercises then t.exercises[n].current else None
  }

  /** The repositories a publication rolls out to. */
  predicate Follows(t: Tables, p: Publication, r: Id) {
    p.existing && r in t.repos && p.Target() in t.exercises && t.repos[r].exercise == t.exercises[p.Target()].id
  }

  /** When one publication is accepted. */
  predicate Admissible(t: Tables, p: Publication, size: Revision -> nat) {
    && RevisionValid(p.revision, size) && !Blank(p.reason) && Current(t, p.Target()) == p.expected
    && forall r :: r in t.repos && Follows(t, p, r) ==> RevisionValid(Merged(t.repos[r].revision, p.revision), size)
  }

  function IdOf(t: Tables, n: Name, id: Id): Id {
    if n in t.exercises then t.exercises[n].id else id
  }

  /** What one accepted publication does. */
  ghost predicate Published(t: Tables, p: Publication, id: Id, t': Tables) {
    && t'.exercises == t.exercises[p.Target() := Exercise(IdOf(t, p.Target(), id), Some(p.revision), false)]
    && t'.repos.Keys == t.repos.Keys
    && (forall r :: r in t.repos ==>
          t'.repos[r] == if Follows(t, p, r) then t.repos[r].(grading := Merged(t.repos[r].revision, p.revision))
            else t.repos[r])
  }

  // ---- a set of publications ----

  ghost predicate DistinctTargets(ps: seq<Publication>) {
    forall i, j :: 0 <= i < j < |ps| ==> ps[i].Target() != ps[j].Target()
  }

  ghost predicate FreshIds(t: Tables, ids: seq<Id>) {
    (forall i :: 0 <= i < |ids| ==> Unused(t, ids[i])) && (forall i, j :: 0 <= i < j < |ids| ==> ids[i] != ids[j])
  }

  /** One of the first `n` publications is for exercise `m`. */
  ghost predicate Targets(ps: seq<Publication>, n: nat, m: Name)
    requires n <= |ps|
  {
    exists i :: 0 <= i < n && ps[i].Target() == m
  }

  /** The exercises after the first `n` publications, told from the state before the first one. */
  ghost predicate ExercisesAfter(t: Tables, ps: seq<Publication>, ids: seq<Id>, n: nat, t': Tables)
    requires n <= |ps| <= |ids|
  {
    && (forall m :: m in t'.exercises <==> m in t.exercises || Targets(ps, n, m))
    && (forall m :: m in t.exercises && !Targets(ps, n, m) ==> t'.exercises[m] == t.exercises[m])
    && (forall i :: 0 <= i < n ==>
          ps[i].Target() in t'.exercises && t'.exercises[ps[i].Target()] ==
          Exercise(IdOf(t, ps[i].Target(), ids[i]), Some(ps[i].revision), false))
  }

  /** Repository `r` follows the one publication for its exercise, if it asks for existing ones. */
  ghost predicate RepoAfter(t: Tables, ps: seq<Publication>, n: nat, t': Tables, r: Id)
    requires n <= |ps| && r in t.repos
  {
    && r in t'.repos
    && ((forall i :: 0 <= i < n ==> !Follows(t, ps[i], r)) ==> t'.repos[r] == t.repos[r])
    && (forall i :: 0 <= i < n && Follows(t, ps[i], r) ==>
          t'.repos[r] == t.repos[r].(grading := Merged(t.repos[r].revision, ps[i].revision)))
  }

  ghost predicate ReposAfter(t: Tables, ps: seq<Publication>, n: nat, t': Tables)
    requires n <= |ps|
  {
    t'.repos.Keys == t.repos.Keys && forall r :: r in t.repos ==> RepoAfter(t, ps, n, t', r)
  }

  lemma SameTarget(t: Tables, p: Publication, q: Publication, r: Id)
    requires Consistent(t) && Follows(t, p, r) && Follows(t, q, r)
    ensures p.Target() == q.Target()
  {
  }

  lemma SamePin(t: Tables, ps: seq<Publication>, n: nat, t1: Tables, r: Id)
    requires n <= |ps| && r in t.repos && RepoAfter(t, ps, n, t1, r)
    ensures t1.repos[r].revision == t.repos[r].revision && t1.repos[r].exercise == t.repos[r].exercise
  {
    hide Merged, Follows;
    if i :| 0 <= i < n && Follows(t, ps[i], r) {
      assert t1.repos[r] == t.repos[r].(grading := Merged(t.repos[r].revision, ps[i].revision));
    }
  }

  lemma NextTarget(t: Tables, ps: seq<Publication>, ids: seq<Id>, n: nat, t1: Tables)
    requires DistinctTargets(ps) && n < |ps| <= |ids| && ExercisesAfter(t, ps, ids, n, t1)
    ensures !Targets(ps, n, ps[n].Target())
    ensures var m := ps[n].Target();
            (m in t1.exercises <==> m in t.exercises) && (m in t.exercises ==> t1.exercises[m] == t.exercises[m])
  {
  }

  lemma NextFollows(t: Tables, ps: seq<Publication>, ids: seq<Id>, n: nat, t1: Tables, r: Id)
    requires DistinctTargets(ps) && n < |ps| <= |ids| && r in t.repos
    requires ExercisesAfter(t, ps, ids, n, t1) && RepoAfter(t, ps, n, t1, r)
    ensures Follows(t1, ps[n], r) <==> Follows(t, ps[n], r)
  {
    hide ExercisesAfter, RepoAfter, Targets;
    NextTarget(t, ps, ids, n, t1);
    SamePin(t, ps, n, t1, r);
    RepoThere(t, ps, n, t1, r);
  }

  lemma RepoThere(t: Tables, ps: seq<Publication>, n: nat, t1: Tables, r: Id)
    requires n <= |ps| && r in t.repos && RepoAfter(t, ps, n, t1, r)
    ensures r in t1.repos
  {
  }

  /** Compare and swap: of two publications that expect the same predecessor the second is refused,
      unless the first one published that very definition again. */
  lemma NoLostUpdate(t: Tables, p: Publication, id: Id, t': Tables, q: Publication, size: Revision -> nat)
    requires Admissible(t, p, size) && Published(t, p, id, t')
    requires q.Target() == p.Target() && q.expected == p.expected
    ensures Admissible(t', q, size) ==> p.expected == Some(p.revision)
  {
    hide RevisionValid, Merged, Blank;
  }

  /** An exercise that is unknown, or known under the expected definition, archived or not, accepts
      every valid publication with a reason that asks for no rollout. */
  lemma AcceptedWithoutRollout(t: Tables, p: Publication, size: Revision -> nat)
    requires !p.existing
    ensures Admissible(t, p, size) <==>
            && Sound(p.revision) && size(p.revision) <= 1_900_000
            && (exists i :: 0 <= i < |p.reason| && !IsWhitespace(p.reason[i]))
            && (p.Target() !in t.exercises ==> p.expected.None?)
            && (p.Target() in t.exercises ==> t.exercises[p.Target()].current == p.expected)
  {
    hide Sound, Merged, IsWhitespace;
  }

  /** With a rollout it is accepted if and only if moreover every merge is valid. */
  lemma AcceptedWithRollout(t: Tables, p: Publication, size: Revision -> nat)
    requires p.existing
    ensures Admissible(t, p, size) <==>
            && Admissible(t, p.(existing := false), size)
            && forall r :: r in t.repos && p.Target() in t.exercises
                           && t.repos[r].exercise == t.exercises[p.Target()].id ==>
                 Sound(Merged(t.repos[r].revision, p.revision))
                 && size(Merged(t.repos[r].revision, p.revision)) <= 1_900_000
  {
    hide Sound, Merged, Blank;
    assert p.(existing := false).Target() == p.Target();
  }

  /** Publications of other exercises do not bear on whether the next one is accepted. */
  lemma StillAdmissible(t: Tables, ps: seq<Publication>, ids: seq<Id>, n: nat, t1: Tables, size: Revision -> nat)
    requires DistinctTargets(ps) && n < |ps| <= |ids| && ExercisesAfter(t, ps, ids, n, t1) && ReposAfter(t, ps, n, t1)
    ensures Admissible(t1, ps[n], size) <==> Admissible(t, ps[n], size)
  {
    hide RevisionValid, Merged, Blank, Follows, ExercisesAfter, RepoAfter, Targets;
    NextTarget(t, ps, ids, n, t1);
    forall r | r in t.repos
      ensures Follows(t1, ps[n], r) <==> Follows(t, ps[n], r)
      ensures t1.repos[r].revision == t.repos[r].revision
    {
      NextFollows(t, ps, ids, n, t1, r);
      SamePin(t, ps, n, t1, r);
    }
  }

  lemma OneMoreExercise(t: Tables, ps: seq<Publication>, ids: seq<Id>, n: nat, t1: Tables, t2: Tables)
    requires DistinctTargets(ps) && n < |ps| <= |ids|
    requires ExercisesAfter(t, ps, ids, n, t1) && Published(t1, ps[n], ids[n], t2)
    ensures ExercisesAfter(t, ps, ids, n + 1, t2)
  {
    hide Merged, Follows, Targets;
    NextTarget(t, ps, ids, n, t1);
    TargetsNext(ps, n);
    TargetsAll(ps, n);
  }

  lemma TargetsNext(ps: seq<Publication>, n: nat)
    requires n < |ps|
    ensures forall m :: Targets(ps, n + 1, m) <==> Targets(ps, n, m) || m == ps[n].Target()
  {
    forall m
      ensures Targets(ps, n + 1, m) <==> Targets(ps, n, m) || m == ps[n].Target()
    {
      assert Targets(ps, n, m) ==> Targets(ps, n + 1, m);
    }
  }

  lemma TargetsAll(ps: seq<Publication>, n: nat)
    requires n <= |ps|
    ensures forall i :: 0 <= i < n ==> Targets(ps, n, ps[i].Target())
  {
  }

  lemma OneMoreRollout(t: Tables, ps: seq<Publication>, ids: seq<Id>, n: nat, t1: Tables, t2: Tables, r: Id)
    requires Consistent(t) && DistinctTargets(ps) && n < |ps| <= |ids| && r in t.repos
    requires ExercisesAfter(t, ps, ids, n, t1) && RepoAfter(t, ps, n, t1, r) && Published(t1, ps[n], ids[n], t2)
    ensures RepoAfter(t, ps, n + 1, t2, r)
  {
    hide Merged, Follows, Targets, ExercisesAfter, Consistent;
    NextFollows(t, ps, ids, n, t1, r);
    SamePin(t, ps, n, t1, r);
    if Follows(t, ps[n], r) {
      forall i | 0 <= i < n
        ensures !Follows(t, ps[i], r)
      {
        if Follows(t, ps[i], r) {
          SameTarget(t, ps[i], ps[n], r);
        }
      }
    }
  }

  lemma OneMore(t: Tables, ps: seq<Publication>, ids: seq<Id>, n: nat, t1: Tables, t2: Tables)
    requires Consistent(t) && DistinctTargets(ps) && n < |ps| <= |ids|
    requires ExercisesAfter(t, ps, ids, n, t1) && ReposAfter(t, ps, n, t1) && Published(t1, ps[n], ids[n], t2)
    ensures ExercisesAfter(t, ps, ids, n + 1, t2) && ReposAfter(t, ps, n + 1, t2)
  {
    hide Merged, Follows, Targets, ExercisesAfter, Consistent, RepoAfter, DistinctTargets;
    OneMoreExercise(t, ps, ids, n, t1, t2);
    forall r | r in t.repos
      ensures RepoAfter(t, ps, n + 1, t2, r)
    {
      OneMoreRollout(t, ps, ids, n, t1, t2, r);
    }
  }

  lemma PublishedConsistent(t: Tables, p: Publication, id: Id, t': Tables)
    requires Consistent(t) && Unused(t, id) && Published(t, p, id, t')
    ensures Consistent(t')
  {
    hide Merged;
    forall r | r in t'.repos
      ensures exists m :: m in t'.exercises && t'.exercises[m].id == t'.repos[r].exercise
    {
      var m :| m in t.exercises && t.exercises[m].id == t.repos[r].exercise;
      assert m in t'.exercises && t'.exercises[m].id == t.exercises[m].id;
    }
  }

  lemma StillUnused(t: Tables, ps: seq<Publication>, ids: seq<Id>, n: nat, t1: Tables)
    requires FreshIds(t, ids) && n < |ps| <= |ids| && ExercisesAfter(t, ps, ids, n, t1)
    ensures Unused(t1, ids[n])
  {
    forall m | m in t1.exercises
      ensures t1.exercises[m].id != ids[n]
    {
      if Targets(ps, n, m) {
        var i :| 0 <= i < n && ps[i].Target() == m;
        assert t1.exercises[m].id == IdOf(t, m, ids[i]);
      }
    }
  }

  // ---- application of a prepared set ----

  function ListingOf(t: Tables, course: string): Listing {
    map n | n in t.exercises && n.course == course ::
      n.slug := CatalogEntry(t.exercises[n].current, t.exercises[n].archived)
  }

  predicate Active(t: Tables, n: Name) {
    n in t.exercises && !t.exercises[n].archived
  }

  ghost predicate InScope(expected: map<string, Listing>, ps: seq<Publication>) {
    DistinctTargets(ps) && forall i :: 0 <= i < |ps| ==> ps[i].revision.courseId in expected
  }

  ghost predicate PreviewHolds(t: Tables, courses: set<string>, expected: map<string, Listing>) {
    forall c :: c in expected ==> c in courses && ListingOf(t, c) == expected[c]
  }

  /** When a prepared set is accepted, in terms of the state before the first publication. */
  ghost predicate Applicable(t: Tables, courses: set<string>, expected: map<string, Listing>, ps: seq<Publication>,
                             reason: string, size: Revision -> nat)
  {
    && !Blank(reason) && InScope(expected, ps) && PreviewHolds(t, courses, expected)
    && forall i :: 0 <= i < |ps| ==> Admissible(t, ps[i], size)
  }

  /** What applying a set achieves: the named courses offer exactly the published exercises. */
  ghost predicate Applied(t: Tables, expected: map<string, Listing>, ps: seq<Publication>, ids: seq<Id>, t': Tables)
    requires |ps| <= |ids|
  {
    && (forall n: Name :: n.course in expected ==> (Active(t', n) <==> Targets(ps, |ps|, n)))
    && (forall i :: 0 <= i < |ps| ==>
          ps[i].Target() in t'.exercises && t'.exercises[ps[i].Target()] ==
          Exercise(IdOf(t, ps[i].Target(), ids[i]), Some(ps[i].revision), false))
    && (forall n :: n in t'.exercises <==> n in t.exercises || Targets(ps, |ps|, n))
    && (forall n :: n in t.exercises && !Targets(ps, |ps|, n) ==>
          t'.exercises[n] == if n.course in expected then t.exercises[n].(archived := true) else t.exercises[n])
    && ReposAfter(t, ps, |ps|, t')
  }

  /** A preview that has gone stale is refused: any exercise of a named course that is new, has
      another definition or was archived or published since. */
  lemma StaleRefused(t: Tables, t1: Tables, courses: set<string>, expected: map<string, Listing>, ps: seq<Publication>,
                     reason: string, size: Revision -> nat, n: Name)
    requires PreviewHolds(t, courses, expected) && n.course in expected
    requires || (n in t1.exercises <==> n !in t.exercises)
             || (n in t.exercises && n in t1.exercises
                 && (t1.exercises[n].current != t.exercises[n].current
                     || t1.exercises[n].archived != t.exercises[n].archived))
    ensures !Applicable(t1, courses, expected, ps, reason, size)
  {
    hide Admissible, InScope, Blank;
    assert ListingOf(t, n.course) == expected[n.course];
    assert n in t.exercises <==> n.slug in ListingOf(t, n.course) by {
      Listed(t, n);
    }
    Listed(t, n);
    Listed(t1, n);
  }

  lemma Listed(t: Tables, n: Name)
    ensures n in t.exercises <==> n.slug in ListingOf(t, n.course)
    ensures n in t.exercises ==>
              ListingOf(t, n.course)[n.slug] == CatalogEntry(t.exercises[n].current, t.exercises[n].archived)
  {
    if n.slug in ListingOf(t, n.course) {
      var m :| m in t.exercises && m.course == n.course && m.slug == n.slug;
      assert m == n;
    }
  }

  /** A set never reaches beyond the courses it names. */
  lemma OnlyNamedCourses(t: Tables, courses: set<string>, expected: map<string, Listing>, ps: seq<Publication>,
                         ids: seq<Id>, reason: string, size: Revision -> nat, t': Tables, n: Name)
    requires |ps| <= |ids| && Applicable(t, courses, expected, ps, reason, size) && Applied(t, expected, ps, ids, t')
    requires n.course !in expected || n.course !in courses
    ensures n.course !in expected
    ensures (n in t'.exercises <==> n in t.exercises) && (n in t.exercises ==> t'.exercises[n] == t.exercises[n])
  {
    hide Admissible, Blank, ReposAfter;
  }

  /** The exercises of a course that an applied set retires. */
  predicate Retired(expected: map<string, Listing>, desired: set<Name>, n: Name) {
    n.course in expected && n.slug in expected[n.course] && !expected[n.course][n.slug].archived && n !in desired
  }

  class Catalog {
    var courses: set<string>
    var exercises: map<Name, Exercise>
    var repos: map<Id, Pinned>
    /** Length of the JSON encoding of a revision. */
    const size: Revision -> nat

    constructor (courses: set<string>, size: Revision -> nat)
      ensures this.courses == courses && this.size == size && View() == Tables(map[], map[]) && Consistent(View())
    {
      this.courses, this.size := courses, size;
      exercises, repos := map[], map[];
    }

    ghost function View(): Tables
      reads this
    {
      Tables(exercises, repos)
    }

    /** The rollout loop: every repository of the exercise is graded by the merged revision. */
    method RollOut(p: Publication, id: Id) returns (ok: bool)
      modifies this`repos
      ensures ok <==>
              forall r :: r in old(repos) && old(repos)[r].exercise == id ==>
                       RevisionValid(Merged(old(repos)[r].revision, p.revision), size)
      ensures ok ==> repos.Keys == old(repos).Keys
      ensures ok ==> forall r :: r in old(repos) ==>
                repos[r] == if old(repos)[r].exercise == id
                  then old(repos)[r].(grading := Merged(old(repos)[r].revision, p.revision)) else old(repos)[r]
    {
      hide Merged, RevisionValid;
      var before := repos;
      var todo := set r | r in repos && repos[r].exercise == id;
      while todo != {}
        invariant todo <= before.Keys && forall r :: r in todo ==> before[r].exercise == id
        invariant repos.Keys == before.Keys
        invariant forall r :: r in before && (before[r].exercise != id || r in todo) ==> repos[r] == before[r]
        invariant forall r :: r in before && before[r].exercise == id && r !in todo ==>
                    RevisionValid(Merged(before[r].revision, p.revision), size)
                    && repos[r] == before[r].(grading := Merged(before[r].revision, p.revision))
        decreases |todo|
      {
        var r :| r in todo;
        assert r in before.Keys;
        var combined := Merged(repos[r].revision, p.revision);
        if !RevisionValid(combined, size) {
          return false;
        }
        repos := repos[r := repos[r].(grading := combined)];
        todo := todo - {r};
      }
      return true;
    }

    /** One publication inside a transaction; a refusal leaves it to the caller to roll back. */
    method PublishInTransaction(p: Publication, id: Id) returns (ok: bool)
      requires Consistent(View()) && Unused(View(), id)
      modifies this`exercises, this`repos
      ensures ok <==> Admissible(old(View()), p, size)
      ensures ok ==> Published(old(View()), p, id, View()) && Consistent(View())
    {
      hide Merged, RevisionValid, Blank;
      if !RevisionValid(p.revision, size) || Blank(p.reason) {
        return false;
      }
      var n := p.Target();
      var current := if n in exercises then exercises[n].current else None;
      if current != p.expected {
        return false;
      }
      var exercise := if n in exercises then exercises[n].id else id;
      exercises := exercises[n := Exercise(exercise, Some(p.revision), false)];
      if p.existing {
        ghost var t := old(View());
        assert n !in t.exercises ==> forall r :: r in t.repos ==> t.repos[r].exercise != id;
        assert forall r :: r in t.repos ==> (t.repos[r].exercise == exercise <==> Follows(t, p, r));
        var done := RollOut(p, exercise);
        if !done {
          return false;
        }
      }
      PublishedConsistent(old(View()), p, id, View());
      return true;
    }

    /** A single publication in its own transaction. */
    method Publish(p: Publication, id: Id, dryRun: bool) returns (ok: bool)
      requires Consistent(View()) && Unused(View(), id)
      modifies this`exercises, this`repos
      ensures ok <==> Admissible(old(View()), p, size)
      ensures ok && !dryRun ==> Published(old(View()), p, id, View())
      ensures !ok || dryRun ==> View() == old(View())
      ensures Consistent(View())
    {
      hide Consistent, Unused, Admissible, Published;
      var exercises0, repos0 := exercises, repos;
      ok := PublishInTransaction(p, id);
      if !ok || dryRun {
        exercises, repos := exercises0, repos0;
      }
    }

    /** The scope test: one pass that collects the desired exercises. */
    method Scope(expected: map<string, Listing>, ps: seq<Publication>) returns (desired: Option<set<Name>>)
      ensures desired.Some? <==> InScope(expected, ps)
      ensures desired.Some? ==> forall n :: n in desired.value <==> Targets(ps, |ps|, n)
    {
      var names: set<Name> := {};
      for i := 0 to |ps|
        invariant forall n :: n in names <==> Targets(ps, i, n)
        invariant forall j, k :: 0 <= j < k < i ==> ps[j].Target() != ps[k].Target()
        invariant forall j :: 0 <= j < i ==> ps[j].revision.courseId in expected
      {
        if ps[i].revision.courseId !in expected || ps[i].Target() in names {
          return None;
        }
        TargetsNext(ps, i);
        names := names + {ps[i].Target()};
      }
      return Some(names);
    }

    /** The preview test over the named courses. */
    method Confirm(expected: map<string, Listing>) returns (ok: bool)
      ensures ok <==> PreviewHolds(View(), courses, expected)
    {
      var todo := expected.Keys;
      while todo != {}
        invariant todo <= expected.Keys
        invariant forall c :: c in expected && c !in todo ==> c in courses && ListingOf(View(), c) == expected[c]
        decreases |todo|
      {
        var course :| course in todo;
        var listing := map n | n in exercises && n.course == course ::
            n.slug := CatalogEntry(exercises[n].current, exercises[n].archived);
        assert listing == ListingOf(View(), course);
        if course !in courses || listing != expected[course] {
          return false;
        }
        todo := todo - {course};
      }
      return true;
    }

    /** Retire what is still active but not desired. */
    method Archive(expected: map<string, Listing>, desired: set<Name>)
      modifies this`exercises
      ensures exercises.Keys == old(exercises).Keys
      ensures forall n :: n in exercises ==>
                exercises[n] == if Retired(expected, desired, n) then old(exercises)[n].(archived := true)
                  else old(exercises)[n]
    {
      hide Retired;
      var before := exercises;
      var todo := set n | n in exercises && Retired(expected, desired, n);
      while todo != {}
        invariant todo <= before.Keys && exercises.Keys == before.Keys
        invariant forall n :: n in todo ==> Retired(expected, desired, n)
        invariant forall n :: n in before ==>
                    exercises[n] == if Retired(expected, desired, n) && n !in todo then before[n].(archived := true)
                      else before[n]
        decreases |todo|
      {
        var n :| n in todo;
        assert n in before.Keys;
        exercises := exercises[n := exercises[n].(archived := true)];
        todo := todo - {n};
      }
    }

    /** All publications in order, stopping at the first refusal. */
    method PublishAll(ps: seq<Publication>, ids: seq<Id>) returns (ok: bool)
      requires Consistent(View()) && |ids| == |ps| && FreshIds(View(), ids) && DistinctTargets(ps)
      modifies this`exercises, this`repos
      ensures ok <==> forall i :: 0 <= i < |ps| ==> Admissible(old(View()), ps[i], size)
      ensures ok ==>
                Consistent(View()) && ExercisesAfter(old(View()), ps, ids, |ps|, View())
                && ReposAfter(old(View()), ps, |ps|, View())
    {
      hide Consistent, FreshIds, DistinctTargets, Admissible, ExercisesAfter, ReposAfter, Published, Unused;
      ghost var t := View();
      NoneYet(t, ps, ids);
      for i := 0 to |ps|
        invariant Consistent(View()) && ExercisesAfter(t, ps, ids, i, View()) && ReposAfter(t, ps, i, View())
        invariant forall j :: 0 <= j < i ==> Admissible(t, ps[j], size)
      {
        ghost var t1 := View();
        StillAdmissible(t, ps, ids, i, t1, size);
        StillUnused(t, ps, ids, i, t1);
        var accepted := PublishInTransaction(ps[i], ids[i]);
        if !accepted {
          return false;
        }
        OneMore(t, ps, ids, i, t1, View());
      }
      return true;
    }

    /** A confirmed set is applied as a whole or not at all. */
    method ApplySet(expected: map<string, Listing>, ps: seq<Publication>, ids: seq<Id>, reason: string, dryRun: bool)
      returns (ok: bool)
      requires Consistent(View()) && |ids| == |ps| && FreshIds(View(), ids)
      modifies this`exercises, this`repos
      ensures ok <==> Applicable(old(View()), courses, expected, ps, reason, size)
      ensures ok && !dryRun ==> Applied(old(View()), expected, ps, ids, View())
      ensures !ok || dryRun ==> View() == old(View())
      ensures Consistent(View())
    {
      hide Consistent, FreshIds, DistinctTargets, Admissible, ExercisesAfter, ReposAfter, Applied, PreviewHolds;
      hide Retired, Targets;
      var exercises0, repos0 := exercises, repos;
      ghost var t := View();
      if Blank(reason) {
        return false;
      }
      var desired := Scope(expected, ps);
      if desired.None? {
        return false;
      }
      var confirmed := Confirm(expected);
      if !confirmed {
        return false;
      }
      ok := PublishAll(ps, ids);
      if ok {
        ghost var t1 := View();
        Archive(expected, desired.value);
        assert Retirement(expected, desired.value, t1, View());
        ArchivedApplies(t, courses, expected, ps, ids, desired.value, t1, View());
      }
      if !ok || dryRun {
        exercises, repos := exercises0, repos0;
      }
    }
  }

  lemma NoneYet(t: Tables, ps: seq<Publication>, ids: seq<Id>)
    requires |ps| <= |ids|
    ensures ExercisesAfter(t, ps, ids, 0, t) && ReposAfter(t, ps, 0, t)
  {
  }

  lemma ListedIff(t: Tables, courses: set<string>, expected: map<string, Listing>, n: Name)
    requires PreviewHolds(t, courses, expected) && n.course in expected
    ensures n.slug in expected[n.course] <==> n in t.exercises
    ensures n in t.exercises ==> expected[n.course][n.slug].archived == t.exercises[n].archived
  {
    assert ListingOf(t, n.course) == expected[n.course];
  }

  /** The rows after retiring, in terms of the rows before. */
  ghost predicate Retirement(expected: map<string, Listing>, desired: set<Name>, t1: Tables, t2: Tables) {
    && t2.repos == t1.repos && t2.exercises.Keys == t1.exercises.Keys
    && forall n :: n in t2.exercises ==>
         t2.exercises[n] == if Retired(expected, desired, n) then t1.exercises[n].(archived := true)
           else t1.exercises[n]
  }

  lemma RetiredRow(t: Tables, courses: set<string>, expected: map<string, Listing>, ps: seq<Publication>, ids: seq<Id>,
                   desired: set<Name>, t1: Tables, t2: Tables, n: Name)
    requires |ps| <= |ids| && PreviewHolds(t, courses, expected) && (n in desired <==> Targets(ps, |ps|, n))
    requires ExercisesAfter(t, ps, ids, |ps|, t1) && Retirement(expected, desired, t1, t2)
    ensures n in t2.exercises <==> n in t.exercises || n in desired
    ensures n in desired ==> t2.exercises[n] == t1.exercises[n] && !t2.exercises[n].archived
    ensures n in t.exercises && n !in desired ==>
              t2.exercises[n] == if n.course in expected then t.exercises[n].(archived := true) else t.exercises[n]
  {
    hide PreviewHolds;
    if n.course in expected {
      ListedIff(t, courses, expected, n);
    }
  }

  lemma RetirementConsistent(expected: map<string, Listing>, desired: set<Name>, t1: Tables, t2: Tables)
    requires Consistent(t1) && Retirement(expected, desired, t1, t2)
    ensures Consistent(t2)
  {
    hide Retired;
    forall r | r in t2.repos
      ensures exists n :: n in t2.exercises && t2.exercises[n].id == t2.repos[r].exercise
    {
      var n :| n in t1.exercises && t1.exercises[n].id == t1.repos[r].exercise;
      assert n in t2.exercises.Keys && t2.exercises[n].id == t1.exercises[n].id;
    }
  }

  lemma SameRepos(t: Tables, ps: seq<Publication>, t1: Tables, t2: Tables)
    requires ReposAfter(t, ps, |ps|, t1) && t2.repos == t1.repos
    ensures ReposAfter(t, ps, |ps|, t2)
  {
    hide Follows, Merged;
    forall r | r in t.repos
      ensures RepoAfter(t, ps, |ps|, t2, r)
    {
      assert RepoAfter(t, ps, |ps|, t1, r);
    }
  }

  /** Publishing and then retiring leaves exactly the desired exercises active. */
  lemma ArchivedApplies(t: Tables, courses: set<string>, expected: map<string, Listing>, ps: seq<Publication>,
                        ids: seq<Id>, desired: set<Name>, t1: Tables, t2: Tables)
    requires Consistent(t1) && |ps| <= |ids| && PreviewHolds(t, courses, expected)
    requires forall n :: n in desired <==> Targets(ps, |ps|, n)
    requires ExercisesAfter(t, ps, ids, |ps|, t1) && ReposAfter(t, ps, |ps|, t1)
             && Retirement(expected, desired, t1, t2)
    ensures Applied(t, expected, ps, ids, t2) && Consistent(t2)
  {
    hide ReposAfter, Targets, Consistent, PreviewHolds, Retired, Retirement;
    TargetsAll(ps, |ps|);
    RetirementConsistent(expected, desired, t1, t2);
    RetirementRepos(expected, desired, t1, t2);
    SameRepos(t, ps, t1, t2);
    forall n: Name
      ensures n in t2.exercises <==> n in t.exercises || n in desired
      ensures n in desired ==> t2.exercises[n] == t1.exercises[n] && !t2.exercises[n].archived
      ensures n in t.exercises && n !in desired ==>
                t2.exercises[n] == if n.course in expected then t.exercises[n].(archived := true) else t.exercises[n]
    {
      RetiredRow(t, courses, expected, ps, ids, desired, t1, t2, n);
    }
  }

  lemma RetirementRepos(expected: map<string, Listing>, desired: set<Name>, t1: Tables, t2: Tables)
    requires Retirement(expected, desired, t1, t2)
    ensures t2.repos == t1.repos
  {
  }
}
