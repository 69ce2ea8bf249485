/** Exact file manifests and bounded snapshots.

    A digest is modelled by its preimage, which is SHA-256 without collisions; base64 data by what
    it decodes to. */
module Integrity {
  import opened Wrappers
  import opened Text

  type Byte = i: int | 0 <= i < 256
  type Bytes = seq<Byte>

  datatype Digest = Sha256(preimage: Bytes) | Malformed(text: string)

  datatype Encoded = Base64(bytes: Bytes) | Undecodable(length: nat)

  datatype Blob = Blob(mode: string, data: Encoded)

  datatype Snapshot = Snapshot(sha: string, files: map<string, Blob>)

  datatype ProtectedFile = ProtectedFile(mode: string, sha256: Digest)

  datatype Manifest = Manifest(
    schemaVersion: nat,
    templateRevision: string,
    editable: seq<string>,
    files: map<string, ProtectedFile>)

  datatype Finding = Finding(path: string, reason: string)

  const MAX_SNAPSHOT_BYTES := 64 * 1024 * 1024
  const MAX_FILE_BYTES := 8 * 1024 * 1024
  const MAX_FILES := 10_000

  const REGULAR := {"100644", "100755"}
  const MODES := REGULAR + {"120000", "160000"}

  /** Length of a base64 text with padding, section 4 of RFC 4648. */
  function EncodedLength(e: Encoded): nat {
    match e
    case Base64(bytes) => (|bytes| + 2) / 3 * 4
    case Undecodable(length) => length
  }

  function Content(b: Blob): Option<Bytes> {
    if EncodedLength(b.data) > (MAX_FILE_BYTES + 2) / 3 * 4 then None
    else if b.data.Undecodable? || |b.data.bytes| > MAX_FILE_BYTES then None
    else Some(b.data.bytes)
  }

  predicate GitDirectory(part: string) {
    |part| == 4 && part[0] == '.' && part[1] in {'g', 'G'} && part[2] in {'i', 'I'} && part[3] in {'t', 'T'}
  }

  predicate SafePath(path: string) {
    && path != "" && ByteLength(path) <= 1024
    && (forall i :: 0 <= i < |path| ==> path[i] !in {'\\', '\0', ':'} && !IsControl(path[i]))
    && forall part :: part in Split(path, '/') ==> part != "" && part != "." && part != ".." && !GitDirectory(part)
  }

  // ---- structure ----

  /** `q` is a directory on the way to `p`. */
  predicate IsAncestor(q: string, p: string) {
    |q| < |p| && p[..|q|] == q && p[|q|] == '/'
  }

  predicate FileSound(path: string, b: Blob) {
    SafePath(path) && b.mode in MODES && Content(b).Some?
  }

  ghost function TotalSize(files: map<string, Blob>): nat
    decreases |files|
  {
    if files == map[] then 0
    else
      var p :| p in files;
      (if Content(files[p]).Some? then |Content(files[p]).value| else 0) + TotalSize(files - {p})
  }

  /** What an acceptable snapshot is: sound files, bounded in number and size, and no file in the
      place of another's directory. */
  ghost predicate StructureValid(s: Snapshot) {
    && ValidHex(s.sha, 40) && |s.files| <= MAX_FILES
    && (forall p :: p in s.files ==> FileSound(p, s.files[p]))
    && TotalSize(s.files) <= MAX_SNAPSHOT_BYTES
    && (forall p, q :: p in s.files && q in s.files ==> !IsAncestor(q, p))
  }

  ghost predicate SnapshotValid(s: Snapshot) {
    StructureValid(s) && forall p :: p in s.files ==> s.files[p].mode in REGULAR
  }

  function SizeOf(b: Blob): nat {
    if Content(b).Some? then |Content(b).value| else 0
  }

  /** The total does not depend on the order in which files are counted. */
  lemma {:induction false} TotalWithout(files: map<string, Blob>, p: string)
    requires p in files
    ensures TotalSize(files) == SizeOf(files[p]) + TotalSize(files - {p})
    decreases |files|
  {
    var q :| q in files && TotalSize(files) == SizeOf(files[q]) + TotalSize(files - {q});
    if p != q {
      TotalWithout(files - {q}, p);
      TotalWithout(files - {p}, q);
      assert files - {q} - {p} == files - {p} - {q};
    }
  }

  /** `rsplit_once('/')`: the part before the last separator. */
  method ParentOf(path: string) returns (parent: Option<string>)
    ensures parent.Some? ==>
              && IsAncestor(parent.value, path)
              && forall q :: IsAncestor(q, path) && q != parent.value ==> IsAncestor(q, parent.value)
    ensures parent.None? ==> forall q :: !IsAncestor(q, path)
  {
    var i := |path|;
    while i > 0
      invariant 0 <= i <= |path|
      invariant forall j :: i <= j < |path| ==> path[j] != '/'
    {
      i := i - 1;
      if path[i] == '/' {
        forall q | IsAncestor(q, path) && q != path[..i]
          ensures IsAncestor(q, path[..i])
        {
          assert |q| != i;
        }
        return Some(path[..i]);
      }
    }
    return None;
  }

  /** The parent walk finds a collision exactly when some file is an ancestor of the path. */
  method Collides(files: map<string, Blob>, path: string) returns (found: bool)
    ensures found <==> exists q :: q in files && IsAncestor(q, path)
  {
    var parent := ParentOf(path);
    while parent.Some?
      invariant parent.Some? ==> IsAncestor(parent.value, path)
      invariant forall q :: q in files && IsAncestor(q, path) ==>
                  parent.Some? && (q == parent.value || IsAncestor(q, parent.value))
      decreases if parent.Some? then |parent.value| + 1 else 0
    {
      if parent.value in files {
        return true;
      }
      var next := ParentOf(parent.value);
      parent := next;
    }
    return false;
  }

  method ValidateStructure(s: Snapshot) returns (ok: bool)
    ensures ok <==> StructureValid(s)
  {
    if !ValidHex(s.sha, 40) || |s.files| > MAX_FILES {
      return false;
    }
    var size := 0;
    var todo := s.files;
    while todo != map[]
      invariant todo.Keys <= s.files.Keys && forall p :: p in todo ==> todo[p] == s.files[p]
      invariant TotalSize(s.files) == size + TotalSize(todo) && size <= MAX_SNAPSHOT_BYTES
      invariant forall p :: p in s.files && p !in todo ==> FileSound(p, s.files[p])
      invariant forall p, q :: p in s.files && p !in todo && q in s.files ==> !IsAncestor(q, p)
      decreases |todo|
    {
      var path :| path in todo;
      if !FileSound(path, s.files[path]) {
        return false;
      }
      TotalWithout(todo, path);
      size := size + |Content(s.files[path]).value|;
      if size > MAX_SNAPSHOT_BYTES {
        return false;
      }
      var collision := Collides(s.files, path);
      if collision {
        return false;
      }
      todo := todo - {path};
    }
    return true;
  }

  method ValidateSnapshot(s: Snapshot) returns (ok: bool)
    ensures ok <==> SnapshotValid(s)
  {
    ok := ValidateStructure(s);
    if ok {
      ok := forall p :: p in s.files ==> s.files[p].mode in REGULAR;
    }
  }

  // ---- manifests ----

  predicate IsEditable(editable: seq<string>, path: string) {
    exists prefix :: prefix in editable && StartsWith(path, prefix)
  }

  /** `trim_end_matches('/')` */
  function TrimSlashes(s: string): string {
    if s != "" && s[|s| - 1] == '/' then TrimSlashes(s[..|s| - 1]) else s
  }

  predicate EditableValid(editable: seq<string>) {
    forall prefix :: prefix in editable ==>
      && prefix != "" && prefix[|prefix| - 1] == '/' && SafePath(TrimSlashes(prefix))
      && !StartsWith(prefix, ".github/") && !StartsWith(prefix, "tests/")
  }

  predicate ManifestValid(m: Manifest) {
    && m.schemaVersion == 1 && ValidHex(m.templateRevision, 40) && EditableValid(m.editable)
    && forall path :: path in m.files ==>
         && SafePath(path) && !IsEditable(m.editable, path) && m.files[path].sha256.Sha256?
         && m.files[path].mode in REGULAR
  }

  function Protect(b: Blob): ProtectedFile
    requires Content(b).Some?
  {
    ProtectedFile(b.mode, Sha256(Content(b).value))
  }

  /** The manifest of a template records exactly its files outside the editable areas. */
  ghost predicate Records(m: Manifest, template: Snapshot, editable: seq<string>)
    requires StructureValid(template)
  {
    && m.schemaVersion == 1 && m.templateRevision == template.sha && m.editable == editable
    && (forall p :: p in m.files <==> p in template.files && !IsEditable(editable, p))
    && (forall p :: p in m.files ==> m.files[p] == Protect(template.files[p]))
  }

  method Generate(template: Snapshot, editable: seq<string>) returns (r: Option<Manifest>)
    ensures r.Some? <==> SnapshotValid(template) && EditableValid(editable)
    ensures r.Some? ==> Records(r.value, template, editable) && ManifestValid(r.value)
  {
    var sound := ValidateSnapshot(template);
    if !sound || !EditableValid(editable) {
      return None;
    }
    var files: map<string, ProtectedFile> := map[];
    var todo := template.files.Keys;
    while todo != {}
      invariant todo <= template.files.Keys
      invariant forall p :: p in files <==> p in template.files && p !in todo && !IsEditable(editable, p)
      invariant forall p :: p in files ==> files[p] == Protect(template.files[p])
      decreases |todo|
    {
      var path :| path in todo;
      if !IsEditable(editable, path) {
        files := files[path := Protect(template.files[path])];
      }
      todo := todo - {path};
    }
    return Some(Manifest(1, template.sha, editable, files));
  }

  /** What is wrong with one path of a snapshot, if anything. */
  function Verdict(m: Manifest, s: Snapshot, path: string): Option<string> {
    if path in m.files then
      if path !in s.files then Some("deleted")
      else if s.files[path].mode != m.files[path].mode then Some("mode changed")
      else if Content(s.files[path]).None? || Sha256(Content(s.files[path]).value) != m.files[path].sha256
              then Some("content changed")
      else None
    else if path in s.files && !IsEditable(m.editable, path) then Some("unapproved addition")
    else if path in s.files && s.files[path].mode !in REGULAR then Some("unsupported symlink or submodule")
    else None
  }

  ghost predicate Distinct(findings: seq<Finding>) {
    forall i, j :: 0 <= i < j < |findings| ==> findings[i].path != findings[j].path
  }

  /** The findings name each objectionable path once, with its reason. */
  ghost predicate Reports(findings: seq<Finding>, m: Manifest, s: Snapshot, about: set<string>) {
    && Distinct(findings)
    && (forall f :: f in findings ==> f.path in about && Verdict(m, s, f.path) == Some(f.reason))
    && (forall path :: path in about && Verdict(m, s, path).Some? ==>
          Finding(path, Verdict(m, s, path).value) in findings)
  }

  lemma ReportMore(findings: seq<Finding>, m: Manifest, s: Snapshot, about: set<string>, path: string)
    requires Reports(findings, m, s, about) && path !in about
    ensures Verdict(m, s, path).None? ==> Reports(findings, m, s, about + {path})
    ensures Verdict(m, s, path).Some? ==>
              Reports(findings + [Finding(path, Verdict(m, s, path).value)], m, s, about + {path})
  {
    if Verdict(m, s, path).Some? {
      var more := findings + [Finding(path, Verdict(m, s, path).value)];
      assert forall f :: f in findings ==> f.path != path;
      assert forall f :: f in findings ==> f in more;
      assert more[|findings|] in more;
    }
  }

  /** Recorded paths come first; within each group the order is that of the paths. */
  predicate Precedes(a: string, b: string, recorded: set<string>) {
    (a in recorded && b !in recorded) || ((a in recorded <==> b in recorded) && Less(a, b))
  }

  ghost predicate InOrder(findings: seq<Finding>, recorded: set<string>) {
    forall i, j :: 0 <= i < j < |findings| ==> Precedes(findings[i].path, findings[j].path, recorded)
  }

  /** All findings so far come before the paths that are left. */
  ghost predicate Ahead(findings: seq<Finding>, todo: set<string>, recorded: set<string>) {
    forall f, p :: f in findings && p in todo && p !in recorded ==> Precedes(f.path, p, recorded)
  }

  lemma StaysAhead(findings: seq<Finding>, todo: set<string>, path: string, reason: string, recorded: set<string>)
    requires InOrder(findings, recorded) && Ahead(findings, todo, recorded) && path in todo && path !in recorded
    requires forall p :: p in todo && p != path ==> Less(path, p)
    ensures InOrder(findings + [Finding(path, reason)], recorded)
    ensures Ahead(findings + [Finding(path, reason)], todo - {path}, recorded)
  {
    hide Less;
  }

  method CheckRecorded(m: Manifest, s: Snapshot) returns (findings: seq<Finding>)
    requires forall p :: p in s.files ==> Content(s.files[p]).Some?
    ensures Reports(findings, m, s, m.files.Keys) && InOrder(findings, m.files.Keys)
    ensures forall f :: f in findings ==> f.path in m.files
  {
    hide Reports, Content, IsEditable, Less;
    findings := [];
    NothingReported(m, s);
    var todo := m.files.Keys;
    while todo != {}
      invariant todo <= m.files.Keys
      invariant Reports(findings, m, s, m.files.Keys - todo) && InOrder(findings, m.files.Keys)
      invariant forall f :: f in findings ==> f.path in m.files && forall p :: p in todo ==> Less(f.path, p)
      decreases |todo|
    {
      var path := LeastOf(todo);
      assert path in m.files.Keys;
      ReportMore(findings, m, s, m.files.Keys - todo, path);
      assert m.files.Keys - (todo - {path}) == m.files.Keys - todo + {path};
      var reason := None;
      if path !in s.files {
        reason := Some("deleted");
      } else if s.files[path].mode != m.files[path].mode {
        reason := Some("mode changed");
      } else if Sha256(Content(s.files[path]).value) != m.files[path].sha256 {
        reason := Some("content changed");
      }
      assert reason == Verdict(m, s, path);
      if reason.Some? {
        findings := findings + [Finding(path, reason.value)];
      }
      todo := todo - {path};
    }
    assert m.files.Keys - todo == m.files.Keys;
  }

  lemma NothingReported(m: Manifest, s: Snapshot)
    ensures Reports([], m, s, {})
    ensures Reports([], m, s, m.files.Keys - m.files.Keys)
  {
    assert m.files.Keys - m.files.Keys == {};
  }

  method CheckPath(m: Manifest, s: Snapshot, findings: seq<Finding>, path: string, ghost about: set<string>)
    returns (more: seq<Finding>)
    requires Reports(findings, m, s, about) && m.files.Keys <= about
    requires path in s.files && (path in about ==> path in m.files)
             && (path in m.files ==> !IsEditable(m.editable, path))
    ensures Reports(more, m, s, about + {path})
    ensures more == findings || (path !in m.files && exists reason :: more == findings + [Finding(path, reason)])
  {
    hide Reports, Content, IsEditable;
    if path in m.files {
      assert about + {path} == about;
    } else {
      ReportMore(findings, m, s, about, path);
    }
    more := findings;
    if path !in m.files && !IsEditable(m.editable, path) {
      more := findings + [Finding(path, "unapproved addition")];
    } else if IsEditable(m.editable, path) && s.files[path].mode !in REGULAR {
      more := findings + [Finding(path, "unsupported symlink or submodule")];
    }
  }

  method CheckPresent(m: Manifest, s: Snapshot, recorded: seq<Finding>) returns (findings: seq<Finding>)
    requires Reports(recorded, m, s, m.files.Keys) && forall p :: p in m.files ==> !IsEditable(m.editable, p)
    requires InOrder(recorded, m.files.Keys) && forall f :: f in recorded ==> f.path in m.files
    ensures Reports(findings, m, s, m.files.Keys + s.files.Keys) && InOrder(findings, m.files.Keys)
  {
    hide Reports, IsEditable, InOrder, Ahead, Less;
    findings := recorded;
    var todo := s.files.Keys;
    ghost var about := m.files.Keys + (s.files.Keys - todo);
    assert about == m.files.Keys;
    assert Ahead(recorded, todo, m.files.Keys) by {
      AllRecorded(recorded, todo, m.files.Keys);
    }
    while todo != {}
      invariant todo <= s.files.Keys && about == m.files.Keys + (s.files.Keys - todo)
      invariant Reports(findings, m, s, about) && InOrder(findings, m.files.Keys) && Ahead(findings, todo, m.files.Keys)
      decreases |todo|
    {
      var path := LeastOf(todo);
      FewerAhead(findings, todo, path, m.files.Keys);
      ghost var before := findings;
      findings := CheckPath(m, s, findings, path, about);
      if findings != before {
        var reason :| findings == before + [Finding(path, reason)];
        StaysAhead(before, todo, path, reason, m.files.Keys);
      }
      Visited(m.files.Keys, s.files.Keys, todo, path);
      about := about + {path};
      todo := todo - {path};
    }
    assert about == m.files.Keys + s.files.Keys;
  }

  lemma AllRecorded(findings: seq<Finding>, todo: set<string>, recorded: set<string>)
    requires forall f :: f in findings ==> f.path in recorded
    ensures Ahead(findings, todo, recorded)
  {
  }

  lemma FewerAhead(findings: seq<Finding>, todo: set<string>, path: string, recorded: set<string>)
    requires Ahead(findings, todo, recorded)
    ensures Ahead(findings, todo - {path}, recorded)
  {
    hide Precedes;
  }

  lemma Visited(known: set<string>, all: set<string>, todo: set<string>, path: string)
    requires todo <= all && path in todo
    ensures known + (all - (todo - {path})) == known + (all - todo) + {path}
  {
  }

  method Check(m: Manifest, s: Snapshot) returns (r: Option<seq<Finding>>)
    ensures r.Some? <==> ManifestValid(m) && StructureValid(s)
    ensures r.Some? ==> Reports(r.value, m, s, m.files.Keys + s.files.Keys) && InOrder(r.value, m.files.Keys)
  {
    hide Reports, SafePath, InOrder;
    var sound := ValidateStructure(s);
    if !ManifestValid(m) || !sound {
      return None;
    }
    var recorded := CheckRecorded(m, s);
    var findings := CheckPresent(m, s, recorded);
    return Some(findings);
  }

  // ---- exactness ----

  /** `s` agrees with the template outside the editable areas and has only regular files in them. */
  ghost predicate Faithful(template: Snapshot, editable: seq<string>, s: Snapshot) {
    && (forall p :: !IsEditable(editable, p) ==> (p in template.files <==> p in s.files))
    && (forall p :: p in template.files && p in s.files && !IsEditable(editable, p) ==>
          s.files[p].mode == template.files[p].mode && Content(s.files[p]) == Content(template.files[p]))
    && (forall p :: p in s.files && IsEditable(editable, p) ==> s.files[p].mode in REGULAR)
  }

  /** A check against a generated manifest finds nothing exactly when the protected content is
      unchanged. */
  lemma CheckExact(template: Snapshot, editable: seq<string>, m: Manifest, s: Snapshot, findings: seq<Finding>)
    requires SnapshotValid(template) && StructureValid(s) && Records(m, template, editable)
    requires Reports(findings, m, s, m.files.Keys + s.files.Keys)
    ensures findings == [] <==> Faithful(template, editable, s)
  {
    hide StructureValid, EditableValid, SafePath, Distinct, IsEditable;
    SoundContent(template);
    SoundContent(s);
    if findings == [] {
      forall p | !IsEditable(editable, p)
        ensures p in template.files <==> p in s.files
        ensures p in template.files && p in s.files ==>
                  s.files[p].mode == template.files[p].mode && Content(s.files[p]) == Content(template.files[p])
      {
        assert p in m.files || p in s.files ==> Verdict(m, s, p).None?;
      }
      forall p | p in s.files && IsEditable(editable, p)
        ensures s.files[p].mode in REGULAR
      {
        assert Verdict(m, s, p).None?;
      }
    } else {
      var f := findings[0];
      assert Verdict(m, s, f.path) == Some(f.reason);
    }
  }

  lemma SoundContent(s: Snapshot)
    requires StructureValid(s)
    ensures forall p :: p in s.files ==> Content(s.files[p]).Some?
  {
  }

  lemma PrefixOfBoth(path: string, a: string, b: string)
    requires StartsWith(path, a) && StartsWith(path, b) && |a| <= |b|
    ensures StartsWith(b, a)
  {
    assert b[..|a|] == path[..|a|];
  }

  /** No workflow and no public test can be in an editable area. */
  lemma ProtectedTrees(m: Manifest, path: string)
    requires ManifestValid(m) && (StartsWith(path, "tests/") || StartsWith(path, ".github/"))
    ensures !IsEditable(m.editable, path)
  {
    hide SafePath;
    var tree := if StartsWith(path, "tests/") then "tests/" else ".github/";
    forall prefix | prefix in m.editable
      ensures !StartsWith(path, prefix)
    {
      if |tree| <= |prefix| && StartsWith(path, prefix) {
        PrefixOfBoth(path, tree, prefix);
      } else {
        assert forall n :: 0 <= n < |tree| - 1 ==> tree[n] != '/';
        assert forall n :: 0 <= n < |tree| ==> path[n] == tree[n];
      }
    }
  }
}
