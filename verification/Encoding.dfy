/** The length of a revision's JSON encoding, which validation limits.

    Timestamps are whole seconds of four-digit years. */
module Encoding {
  import opened Wrappers
  import opened Text
  import opened Config
  import opened Integrity
  import opened Seeds
  import opened Protocol

  /** Bytes of one character in a JSON string, section 7 of RFC 8259. */
  function CharLength(c: char): nat {
    if c in {'"', '\\', '\n', '\r', '\t', '\U{8}', '\U{C}'} then 2
    else if c < ' ' then 6
    else ByteLength([c])
  }

  function CharsLength(s: string): nat {
    if s == "" then 0 else CharLength(s[0]) + CharsLength(s[1..])
  }

  function TextLength(s: string): nat {
    CharsLength(s) + 2
  }

  function NumberLength(n: int): nat
    decreases if n < 0 then 1 - n else n
  {
    if n < 0 then 1 + NumberLength(-n) else if n < 10 then 1 else 1 + NumberLength(n / 10)
  }

  const TIMESTAMP := 22

  /** A member of an object with its quotes, its colon and the comma or brace that ends it. */
  function Member(name: string, value: nat): nat {
    |name| + 4 + value
  }

  function TextsLength(texts: seq<string>): nat {
    if texts == [] then 1 else TextLength(texts[0]) + 1 + TextsLength(texts[1..])
  }

  /** An array of strings: one comma or bracket after each, and one bracket before. */
  function ListLength(texts: seq<string>): nat {
    if texts == [] then 2 else TextsLength(texts)
  }

  function ResourcesLength(r: Resources): nat {
    1 + Member("cpu", NumberLength(r.cpu)) + Member("memory_gib", NumberLength(r.memoryGib))
    + Member("storage_gib", NumberLength(r.storageGib))
  }

  /** What a rollout keeps of the assignment, and what it replaces. */
  function KeptTerms(a: Assignment): nat {
    1 + Member("title", TextLength(a.title)) + Member("opens_at", TIMESTAMP) + Member("deadline", TIMESTAMP)
    + Member("branch", TextLength(a.branch)) + Member("template", TextLength(a.template))
    + Member("template_revision", TextLength(a.templateRevision))
    + Member("integrity_manifest", TextLength(a.integrityManifest)) + Member("public_tests", TextLength(a.publicTests))
    + Member("score", 1 + Member("source", TextLength(a.scoreSource))
             + Member("selection", TextLength(a.scoreSelection)))
  }

  function ReplacedTerms(a: Assignment): nat {
    Member("image", TextLength(a.image)) + Member("execution_profile", TextLength(a.executionProfile))
    + Member("max_points", NumberLength(a.maxPoints)) + Member("timeout_seconds", NumberLength(a.timeoutSeconds))
    + Member("resources", ResourcesLength(a.resources))
  }

  function ProtectedLength(f: ProtectedFile): nat {
    1 + Member("mode", TextLength(f.mode))
    + Member("sha256", match f.sha256 case Sha256(_) => 66 case Malformed(text) => TextLength(text))
  }

  ghost function FilesLength(files: map<string, ProtectedFile>): nat
    decreases |files|
  {
    if files == map[] then 0
    else
      var p :| p in files;
      TextLength(p) + 1 + ProtectedLength(files[p]) + 1 + FilesLength(files - {p})
  }

  ghost function ManifestLength(m: Manifest): nat {
    1 + Member("schema_version", NumberLength(m.schemaVersion))
    + Member("template_revision", TextLength(m.templateRevision))
    + Member("editable", ListLength(m.editable))
    + Member("files", if m.files == map[] then 2 else 1 + FilesLength(m.files))
  }

  function ArtifactLength(a: Artifact): nat {
    1 + Member("name", TextLength(a.name)) + Member("path", TextLength(a.path))
    + Member("mount_path", TextLength(a.mountPath))
    + Member("mode", TextLength(if a.mode == ReadOnly then "read_only" else "private_copy"))
    + Member("max_size_gib", NumberLength(a.maxSizeGib))
  }

  function ArtifactsLength(artifacts: seq<Artifact>): nat {
    if artifacts == [] then 1 else ArtifactLength(artifacts[0]) + 1 + ArtifactsLength(artifacts[1..])
  }

  function CachingLength(c: Caching): nat {
    1 + Member("version", NumberLength(c.version)) + Member("recipe_dir", TextLength(c.recipeDir))
    + Member("command", ListLength(c.command)) + Member("timeout_seconds", NumberLength(c.timeoutSeconds))
    + Member("resources", ResourcesLength(c.resources)) + Member("architecture", TextLength(c.architecture))
    + Member("artifacts", if c.artifacts == [] then 2 else ArtifactsLength(c.artifacts))
  }

  function SeedLength(s: Seed): nat {
    1 + Member("config", CachingLength(s.config)) + Member("input_key", TextLength(s.inputKey))
    + Member("digest", TextLength(s.digest))
    + Member("namespace", TextLength(s.namespace)) + Member("source_pvc", TextLength(s.sourcePvc))
  }

  /** A missing private command is written as `null`. */
  function WorkflowLength(w: Workflow): nat {
    1 + Member("public_command", ListLength(w.publicCommand))
    + Member("private_command", if w.privateCommand.Some? then ListLength(w.privateCommand.value) else 4)
  }

  /** Missing options of a grader are not written. */
  function GraderLength(g: Grader): nat {
    1 + (if g.caching.Some? then Member("caching", SeedLength(g.caching.value)) else 0)
    + Member("repository", TextLength(g.repository)) + Member("revision", TextLength(g.revision))
    + Member("image", TextLength(g.image))
    + (if g.sourceDigest.Some? then Member("source_digest", TextLength(g.sourceDigest.value)) else 0)
    + (if g.workflow.Some? then Member("workflow", WorkflowLength(g.workflow.value)) else 0)
  }

  /** The part of a revision that a rollout replaces. */
  function Replaced(v: Revision): nat {
    ReplacedTerms(v.assignment) + if v.grader.Some? then Member("grader", GraderLength(v.grader.value)) else 0
  }

  ghost function JsonLength(v: Revision): nat {
    1 + Member("course_id", TextLength(v.courseId)) + Member("assignment_id", TextLength(v.assignmentId))
    + Member("assignment", KeptTerms(v.assignment)) + Member("manifest", ManifestLength(v.manifest))
    + Member("tests", 1 + Member("schema_version", NumberLength(v.testsSchema)) + Member("tests", 2))
    + Replaced(v)
  }

  // ---- when a rollout fits ----

  lemma MergedLength(pinned: Revision, published: Revision)
    ensures JsonLength(Merged(pinned, published)) == JsonLength(pinned) - Replaced(pinned) + Replaced(published)
  {
    hide ManifestLength, GraderLength, TextLength, NumberLength, ResourcesLength;
  }

  /** A rollout of a valid publication to a valid definition is refused exactly when the part it
      brings is too much longer than the one it replaces. */
  lemma MergedValidIff(pinned: Revision, published: Revision)
    requires RevisionValid(pinned, JsonLength) && RevisionValid(published, JsonLength)
    ensures RevisionValid(Merged(pinned, published), JsonLength) <==>
            Replaced(published) - Replaced(pinned) <= MAX_DEFINITION_BYTES - JsonLength(pinned)
  {
    hide JsonLength, Replaced, Sound, Merged;
    MergedSound(pinned, published);
    MergedLength(pinned, published);
  }

  // ---- a rollout that does not fit ----

  function Run(c: char, n: nat): string {
    seq(n, _ => c)
  }

  lemma {:induction false} RunLength(c: char, n: nat)
    requires ' ' <= c < '\U{80}' && c !in {'"', '\\'}
    ensures CharsLength(Run(c, n)) == n && ByteLength(Run(c, n)) == n
  {
    if n > 0 {
      assert Run(c, n)[1..] == Run(c, n - 1);
      assert [c][1..] == "" && ByteLength([c]) == 1 && CharLength(c) == 1;
      RunLength(c, n - 1);
    }
  }

  lemma {:induction false} TextsSame(text: string, n: nat)
    ensures TextsLength(seq(n, _ => text)) == 1 + n * (TextLength(text) + 1)
  {
    var texts := seq(n, _ => text);
    if n > 0 {
      assert texts[1..] == seq(n - 1, _ => text);
      TextsSame(text, n - 1);
    }
  }

  const IMAGE := "i" + DIGEST_MARK + Run('0', 64)

  function SmallAssignment(): Assignment {
    Assignment("t", 0, 1, "b", "o/r", Run('0', 40), IMAGE, "m", "tests", "registered-v1", 1, 1, Resources(1, 1, 1),
               "public-tests", "latest-eligible-submission")
  }

  /** A small exercise with these editable areas and this command. */
  function Definition(editable: seq<string>, command: seq<string>): Revision {
    Revision("c", "a", SmallAssignment(),
             Manifest(1, Run('0', 40), editable, map["tests" := ProtectedFile("100644", Sha256([]))]), 1,
             Some(Grader(None, "o/r", Run('0', 40), IMAGE, Some(Run('0', 64)), Some(Workflow(command, None)))))
  }

  lemma SmallSound()
    ensures AssignmentValid(SmallAssignment()) && GithubRepository("o/r") && Image(IMAGE) && SafePath("tests")
  {
    OneSlash();
    ImageOk();
    PlainPath("m");
    PlainPath("tests");
  }

  lemma OneSlash()
    ensures GithubRepository("o/r")
  {
    NoSlash("r");
    assert "/r"[1..] == "r" && Split("/r", '/') == ["", "r"];
    assert "o/r"[1..] == "/r" && ['o'] + "" == "o";
    assert Split("o/r", '/') == ["o", "r"];
  }

  lemma ImageOk()
    ensures Image(IMAGE)
  {
    assert IMAGE[..1] == "i" && IMAGE[1..9] == DIGEST_MARK && IMAGE[9..] == Run('0', 64);
    NoSlash("i");
  }

  lemma {:induction false} NoSlash(s: string)
    requires '/' !in s
    ensures Split(s, '/') == [s]
  {
    if s != "" {
      NoSlash(s[1..]);
      assert [s[0]] + s[1..] == s;
    }
  }

  lemma {:induction false} AsciiLength(s: string)
    requires forall i :: 0 <= i < |s| ==> s[i] < '\U{80}'
    ensures ByteLength(s) == |s|
  {
    if s != "" {
      AsciiLength(s[1..]);
    }
  }

  /** A single lower-case name is a safe path. */
  lemma PlainPath(s: string)
    requires 0 < |s| <= 1024 && forall i :: 0 <= i < |s| ==> 'a' <= s[i] <= 'z'
    ensures SafePath(s)
  {
    AsciiLength(s);
    NoSlash(s);
  }

  lemma DefinitionSound(editable: seq<string>, command: seq<string>)
    requires EditableValid(editable) && !IsEditable(editable, "tests") && Command(command)
    ensures Sound(Definition(editable, command))
  {
    hide AssignmentValid, GithubRepository, Image, SafePath, EditableValid, IsEditable, Command;
    SmallSound();
    var v := Definition(editable, command);
    assert "tests" in v.manifest.files;
  }

  lemma DefinitionLength(editable: seq<string>, command: seq<string>)
    ensures JsonLength(Definition(editable, command)) ==
            JsonLength(Definition([], [])) - 4 + ListLength(editable) + ListLength(command)
  {
    hide TextLength, NumberLength, FilesLength, KeptTerms, ReplacedTerms, TextsLength;
  }

  lemma {:induction false} AtMostSix(s: string)
    ensures CharsLength(s) <= 6 * |s|
  {
    if s != "" {
      assert [s[0]][1..] == "" && ByteLength("") == 0;
      AtMostSix(s[1..]);
    }
  }

  lemma SmallFiles(f: ProtectedFile)
    ensures FilesLength(map["tests" := f]) == TextLength("tests") + 2 + ProtectedLength(f)
  {
    var files := map["tests" := f];
    assert files - {"tests"} == map[];
  }

  lemma SmallTerms()
    ensures KeptTerms(SmallAssignment()) + ReplacedTerms(SmallAssignment()) <= 2000
  {
    hide CharsLength;
    var a := SmallAssignment();
    AtMostSix(a.title);
    AtMostSix(a.branch);
    AtMostSix(a.template);
    AtMostSix(a.templateRevision);
    AtMostSix(a.integrityManifest);
    AtMostSix(a.publicTests);
    AtMostSix(a.scoreSource);
    AtMostSix(a.scoreSelection);
    AtMostSix(a.image);
    AtMostSix(a.executionProfile);
  }

  lemma SmallLength()
    ensures JsonLength(Definition([], [])) <= 5000
  {
    hide CharsLength, KeptTerms, ReplacedTerms, FilesLength, SmallAssignment;
    SmallTerms();
    SmallFiles(ProtectedFile("100644", Sha256([])));
    AtMostSix("c");
    AtMostSix("a");
    AtMostSix("o/r");
    AtMostSix("tests");
    AtMostSix("100644");
    AtMostSix(Run('0', 40));
    AtMostSix(Run('0', 64));
    AtMostSix(IMAGE);
  }

  const AREA := Run('a', 1000) + "/"
  const ARGUMENT := Run('a', 65000)

  /** A hundred long editable areas. */
  function Wide(): Revision {
    Definition(seq(100, _ => AREA), ["/"])
  }

  /** A command of twenty-eight long arguments. */
  function Long(): Revision {
    Definition([], ["/"] + seq(28, _ => ARGUMENT))
  }

  lemma {:induction false} CharsConcat(s: string, u: string)
    ensures CharsLength(s + u) == CharsLength(s) + CharsLength(u)
  {
    if s == "" {
      assert s + u == u;
    } else {
      assert (s + u)[1..] == s[1..] + u;
      CharsConcat(s[1..], u);
    }
  }

  lemma AreaValid()
    ensures EditableValid(seq(100, _ => AREA)) && !IsEditable(seq(100, _ => AREA), "tests") && TextLength(AREA) == 1003
  {
    hide SafePath;
    var name := Run('a', 1000);
    PlainPath(name);
    RunLength('a', 1000);
    CharsConcat(name, "/");
    RunLength('/', 1);
    assert Run('/', 1) == "/";
    assert AREA[..1000] == name && TrimSlashes(name) == name && TrimSlashes(AREA) == name;
    assert AREA[0] == 'a' && ".github/"[0] == '.' && "tests/"[0] == 't' && |AREA| > |"tests"|;
  }

  lemma NoAreas()
    ensures EditableValid([]) && !IsEditable([], "tests")
  {
  }

  lemma RepeatedCommand(a: string, n: nat)
    requires n <= 255 && ByteLength(a) <= 65536 && '\0' !in a
    ensures Command(["/"] + seq(n, _ => a)) && Command(["/"])
  {
    hide ByteLength;
    RunLength('/', 1);
    assert Run('/', 1) == "/" && '\0' !in Run('/', 1);
  }

  lemma ArgumentsValid()
    ensures Command(["/"] + seq(28, _ => ARGUMENT)) && Command(["/"])
  {
    hide ByteLength, Command;
    RunLength('a', 65000);
    RepeatedCommand(ARGUMENT, 28);
  }

  lemma ArgumentsLength()
    ensures ListLength(["/"]) == 5 && ListLength(["/"] + seq(28, _ => ARGUMENT)) == 5 + 28 * 65003
  {
    hide CharsLength, ByteLength;
    RunLength('a', 65000);
    RunLength('/', 1);
    assert Run('/', 1) == "/";
    var rest := seq(28, _ => ARGUMENT);
    TextsSame(ARGUMENT, 28);
    assert (["/"] + rest)[1..] == rest && ["/"][1..] == [];
    assert TextsLength([]) == 1;
  }

  /** Two valid definitions whose merge is refused: the wide one grades with a short command, the
      long one has no editable areas, and together they exceed the limit. */
  lemma MergeRefused()
    ensures RevisionValid(Wide(), JsonLength) && RevisionValid(Long(), JsonLength)
    ensures Sound(Merged(Wide(), Long())) && !RevisionValid(Merged(Wide(), Long()), JsonLength)
  {
    hide JsonLength, Sound, EditableValid, IsEditable, Command, TextLength, TextsLength, Merged;
    var areas := seq(100, _ => AREA);
    var command := ["/"] + seq(28, _ => ARGUMENT);
    AreaValid();
    ArgumentsValid();
    ArgumentsLength();
    NoAreas();
    DefinitionSound(areas, ["/"]);
    DefinitionSound([], command);
    TextsSame(AREA, 100);
    SmallLength();
    DefinitionLength(areas, ["/"]);
    DefinitionLength([], command);
    MergedSound(Wide(), Long());
    Combined();
    DefinitionLength(areas, command);
  }

  lemma Combined()
    ensures Merged(Wide(), Long()) == Definition(seq(100, _ => AREA), ["/"] + seq(28, _ => ARGUMENT))
  {
  }

  lemma SameExercise()
    ensures Wide().courseId == Long().courseId && Wide().assignmentId == Long().assignmentId
  {
  }
}
