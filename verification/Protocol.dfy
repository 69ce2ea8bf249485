/** Versioned revisions, leases and results of the restricted executor interface.

    A digest is modelled by its preimage: `revision_digest` columns hold the revision itself and
    `result_digest` columns hold the result. That is SHA-256 without collisions. */
module Protocol {
  import opened Wrappers
  import opened Text
  import opened Config
  import opened Seeds
  import Integrity

  datatype Assignment = Assignment(
    title: string,
    opensAt: int,
    deadline: int,
    branch: string,
    template: string,
    templateRevision: string,
    image: string,
    integrityManifest: string,
    publicTests: string,
    executionProfile: string,
    maxPoints: int,
    timeoutSeconds: nat,
    resources: Resources,
    scoreSource: string,
    scoreSelection: string)

  datatype Workflow = Workflow(publicCommand: seq<string>, privateCommand: Option<seq<string>>)

  datatype Grader = Grader(
    caching: Option<Seed>,
    repository: string,
    revision: string,
    image: string,
    sourceDigest: Option<string>,
    workflow: Option<Workflow>)

  datatype Revision = Revision(
    courseId: string,
    assignmentId: string,
    assignment: Assignment,
    manifest: Integrity.Manifest,
    testsSchema: nat,
    grader: Option<Grader>)
  {
    predicate HasPrivateCommand() {
      grader.Some? && grader.value.workflow.Some? && grader.value.workflow.value.privateCommand.Some?
    }
  }

  /** A published grader merged into the definition a repository was provisioned with. */
  function Merged(pinned: Revision, published: Revision): Revision {
    pinned.(grader := published.grader,
            assignment := pinned.assignment.(
              image := published.assignment.image,
              executionProfile := published.assignment.executionProfile,
              resources := published.assignment.resources,
              timeoutSeconds := published.assignment.timeoutSeconds,
              maxPoints := published.assignment.maxPoints))
  }

  // ---- validity of definitions ----

  predicate WorkflowValid(w: Workflow) {
    Command(w.publicCommand) && (w.privateCommand.Some? ==> Command(w.privateCommand.value))
  }

  predicate GraderValid(g: Grader) {
    && (g.caching.Some? ==> SeedValid(g.caching.value))
    && GithubRepository(g.repository) && ValidHex(g.revision, 40) && Image(g.image)
    && g.sourceDigest.Some? && ValidHex(g.sourceDigest.value, 64)
    && g.workflow.Some? && WorkflowValid(g.workflow.value)
  }

  predicate AssignmentValid(a: Assignment) {
    && a.opensAt < a.deadline && a.title != "" && ByteLength(a.title) <= 200
    && Identifier(a.branch) && GithubRepository(a.template) && ValidHex(a.templateRevision, 40)
    && Image(a.image) && a.executionProfile == "registered-v1"
    && Integrity.SafePath(a.integrityManifest) && Integrity.SafePath(a.publicTests)
    && 0 < a.maxPoints <= 100_000 && 1 <= a.timeoutSeconds <= 86400 && a.resources.Valid()
    && a.scoreSource == "public-tests" && a.scoreSelection == "latest-eligible-submission"
  }

  /** Grading storage that private copies of cache artifacts take. */
  function CopiedGib(artifacts: seq<Artifact>): nat {
    if artifacts == [] then 0
    else (if artifacts[0].mode == PrivateCopy then artifacts[0].maxSizeGib else 0) + CopiedGib(artifacts[1..])
  }

  predicate TestsProtected(v: Revision) {
    exists p :: p in v.manifest.files
                && (p == v.assignment.publicTests || StartsWith(p, v.assignment.publicTests + "/"))
  }

  /** Everything a revision must satisfy besides the limit on its serialized size. */
  predicate Sound(v: Revision) {
    && Identifier(v.courseId) && Identifier(v.assignmentId) && AssignmentValid(v.assignment) && v.testsSchema == 1
    && v.grader.Some? && GraderValid(v.grader.value)
    && (v.grader.value.caching.Some? ==>
          CopiedGib(v.grader.value.caching.value.config.artifacts) < v.assignment.resources.storageGib)
    && v.grader.value.image == v.assignment.image
    && Integrity.ManifestValid(v.manifest) && v.manifest.templateRevision == v.assignment.templateRevision
    && TestsProtected(v)
  }

  const MAX_DEFINITION_BYTES := 1_900_000

  /** `Revision::validate`, for a measure of the serialized size. */
  predicate RevisionValid(v: Revision, size: Revision -> nat) {
    Sound(v) && size(v) <= MAX_DEFINITION_BYTES
  }

  /** Merging a sound publication into a sound definition is sound; only the size can be refused. */
  lemma MergedSound(pinned: Revision, published: Revision)
    requires Sound(pinned) && Sound(published)
    ensures Sound(Merged(pinned, published))
  {
  }

  /** Rollouts do not compound, and they keep what the student was given. */
  lemma MergedFlat(pinned: Revision, first: Revision, second: Revision)
    ensures Merged(Merged(pinned, first), second) == Merged(pinned, second)
    ensures var m := Merged(pinned, first);
            && m.manifest == pinned.manifest && m.courseId == pinned.courseId && m.assignmentId == pinned.assignmentId
            && m.assignment.template == pinned.assignment.template
            && m.assignment.templateRevision == pinned.assignment.templateRevision
            && m.assignment.branch == pinned.assignment.branch
            && m.assignment.publicTests == pinned.assignment.publicTests
            && m.assignment.opensAt == pinned.assignment.opensAt && m.assignment.deadline == pinned.assignment.deadline
  {
  }

  datatype PublicBaseline = PublicBaseline(run: nat, points: int, deadline: int)

  datatype Lease = Lease(
    run: nat,
    token: nat,
    expiresAt: int,
    sha: string,
    revision: Revision,
    source: string,
    baseline: Option<PublicBaseline>)

  datatype ResultStatus = Completed | IntegrityFailed | InfrastructureFailed | TimedOut | Invalidated

  datatype RunLog = RunLog(studentVisible: bool, text: string)

  datatype ScriptScore = ScriptScore(schemaVersion: nat, points: int, invalidated: bool, reason: string)

  datatype RunResult = RunResult(
    logs: seq<RunLog>,
    schemaVersion: nat,
    token: nat,
    run: nat,
    sha: string,
    revision: Revision,
    image: string,
    resources: Resources,
    status: ResultStatus,
    findings: seq<Integrity.Finding>,
    score: Option<ScriptScore>)

  const MAX_RUN_LOG_BYTES := 256 * 1024

  function LogBytes(logs: seq<RunLog>): nat {
    if logs == [] then 0 else ByteLength(logs[0].text) + LogBytes(logs[1..])
  }

  predicate ScoreValid(score: ScriptScore, maximum: int, baseline: Option<PublicBaseline>) {
    && score.schemaVersion == 1
    && 0 <= score.points <= maximum
    && ByteLength(score.reason) <= 2048
    && (score.invalidated ==> baseline.Some?)
    && (score.invalidated || (baseline.Some? && baseline.value.points != score.points) ==> !Blank(score.reason))
  }

  predicate ProvenanceMatches(result: RunResult, lease: Lease) {
    && result.schemaVersion == 1
    && result.token == lease.token
    && result.run == lease.run
    && result.sha == lease.sha
    && result.revision == lease.revision
    && result.image == lease.revision.assignment.image
    && result.resources == lease.revision.assignment.resources
  }

  predicate SizesValid(result: RunResult, lease: Lease) {
    && |result.findings| <= 10_000
    && (forall f :: f in result.findings ==> ByteLength(f.path) <= 1024 && ByteLength(f.reason) <= 256)
    && |result.logs| <= 128
    && LogBytes(result.logs) <= MAX_RUN_LOG_BYTES
    && (lease.baseline.None? || forall l :: l in result.logs ==> !l.studentVisible)
  }

  /** `None` refuses the result; `Some(p)` accepts it with the optional score `p`. */
  function ValidateResult(result: RunResult, lease: Lease): (r: Option<Option<int>>)
    ensures r.Some? ==> result.run == lease.run && result.token == lease.token
    ensures r.Some? ==> (r.value.Some? <==> result.status == Completed)
    ensures r.Some? && r.value.Some? ==> 0 <= r.value.value <= lease.revision.assignment.maxPoints
    ensures r.Some? && result.status == Invalidated ==> lease.baseline.Some?
  {
    if !Sound(lease.revision) || !ProvenanceMatches(result, lease) || !SizesValid(result, lease) then None
    else if result.status != Completed && result.status != Invalidated then
      if result.score.Some? || !(result.status == IntegrityFailed || result.findings == []) then None
      else Some(None)
    else if result.findings != [] || result.score.None? then None
    else if !ScoreValid(result.score.value, lease.revision.assignment.maxPoints, lease.baseline) then None
    else if result.score.value.invalidated != (result.status == Invalidated) then None
    else if result.score.value.invalidated then Some(None)
    else Some(Some(result.score.value.points))
  }
}
