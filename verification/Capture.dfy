/** Capturing, verifying and exporting cache artifacts step by step. */
module Capture {
  import opened Wrappers
  import opened Text
  import opened Config
  import opened Seeds
  import opened CacheSeal

  ghost function Size(n: Node): nat
    decreases n, 1, 0
  {
    match n
    case File(_, content, _) => |content|
    case Directory(_, children) => SizeOfAll(n, Names(children.Keys))
    case Special(_) => 0
  }

  ghost function SizeOfAll(n: Node, names: seq<string>): nat
    requires n.Directory? && forall c :: c in names ==> c in n.children
    decreases n, 0, |names|
  {
    if names == [] then 0 else Size(n.children[names[0]]) + SizeOfAll(n, names[1..])
  }

  /** When a scan that starts with so many entries and bytes succeeds. */
  ghost predicate Scannable(entries: nat, total: nat, path: string, n: Node, limit: nat) {
    Acceptable(path, n) && entries + |Entries(path, n)| <= MAX_ENTRIES && total + Size(n) <= limit
  }

  lemma {:induction false} ManyEntries(path: string, n: Node, names: seq<string>)
    requires n.Directory? && forall c :: c in names ==> c in n.children && Acceptable(ChildPath(path, c), n.children[c])
    ensures |Forest(path, n, names)| >= |names|
    decreases |names|
  {
    hide Entries, Acceptable;
    if names != [] {
      FirstEntry(ChildPath(path, names[0]), n.children[names[0]]);
      ManyEntries(path, n, names[1..]);
    }
  }

  /** `read_dir`: the names of a directory in any order. */
  method ReadDir(all: set<string>) returns (listing: seq<string>)
    ensures Lists(listing, all) && (forall i, j :: 0 <= i < j < |listing| ==> listing[i] != listing[j])
  {
    listing := [];
    var todo := all;
    while todo != {}
      invariant todo <= all
      invariant forall c :: c in listing <==> c in all && c !in todo
      invariant forall i, j :: 0 <= i < j < |listing| ==> listing[i] != listing[j]
      decreases |todo|
    {
      var c :| c in todo;
      listing, todo := listing + [c], todo - {c};
    }
  }

  function Finished(n: Node, seal: bool): Node {
    if seal then Seal(n) else n
  }

  lemma FileScannable(entries: nat, total: nat, path: string, n: Node, limit: nat)
    requires n.File?
    ensures Scannable(entries, total, path, n, limit) <==>
            PathOk(path) && n.links == 1 && entries < MAX_ENTRIES && total + |n.content| <= limit
  {
  }

  lemma DirectoryScannable(entries: nat, total: nat, path: string, n: Node, limit: nat)
    requires n.Directory?
    ensures Acceptable(path, n) <==>
            PathOk(path) && forall c :: c in n.children ==> Acceptable(ChildPath(path, c), n.children[c])
    ensures Size(n) == SizeOfAll(n, Names(n.children.Keys))
    ensures Entries(path, n) == [Entry(path, 0, true, None)] + Forest(path, n, Names(n.children.Keys))
    ensures Scannable(entries, total, path, n, limit) ==> |Names(n.children.Keys)| < MAX_ENTRIES
  {
    if Scannable(entries, total, path, n, limit) {
      ManyEntries(path, n, Names(n.children.Keys));
    }
  }

  lemma NextChild(path: string, n: Node, names: seq<string>, i: nat)
    requires n.Directory? && i < |names| && forall c :: c in names ==> c in n.children
    ensures Forest(path, n, names[i..]) == Entries(ChildPath(path, names[i]), n.children[names[i]])
            + Forest(path, n, names[i + 1..])
    ensures SizeOfAll(n, names[i..]) == Size(n.children[names[i]]) + SizeOfAll(n, names[i + 1..])
  {
    hide Entries;
    assert names[i..][1..] == names[i + 1..];
  }

  class Scanner {
    var entries: seq<Entry>
    var total: nat

    constructor ()
      ensures entries == [] && total == 0
    {
      entries, total := [], 0;
    }

    method ScanFile(path: string, n: Node, limit: nat, seal: bool) returns (ok: bool, after: Node)
      requires n.File? && total <= limit && |entries| < MAX_ENTRIES && PathOk(path)
      modifies this
      ensures ok <==> Scannable(|old(entries)|, old(total), path, n, limit)
      ensures ok ==>
                entries == old(entries) + Entries(path, n) && total == old(total) + Size(n)
                && after == Finished(n, seal)
    {
      FileScannable(|entries|, total, path, n, limit);
      ok, after := false, n;
      if n.links != 1 {
        return;
      }
      total := total + |n.content|;
      if total > limit {
        return;
      }
      entries := entries + [Entry(path, |n.content|, Executable(n.mode), Some(n.content))];
      if seal {
        after := File(if Executable(n.mode) then READ_EXECUTE else READ_ONLY, n.content, n.links);
      }
      ok := true;
    }

    /** Whatever order directories are listed in, a scan appends the entries of the tree, and it
        fails exactly when the tree has an unacceptable node or exceeds a limit. */
    method Scan(path: string, n: Node, limit: nat, seal: bool) returns (ok: bool, after: Node)
      requires total <= limit && |entries| <= MAX_ENTRIES
      modifies this
      ensures ok <==> Scannable(|old(entries)|, old(total), path, n, limit)
      ensures ok ==>
                entries == old(entries) + Entries(path, n) && total == old(total) + Size(n)
                && after == Finished(n, seal)
      decreases n, 1, 0
    {
      hide PathOk, Entries, Size, Seal;
      ok, after := false, n;
      if |entries| >= MAX_ENTRIES || !PathOk(path) || n.Special? {
        if Acceptable(path, n) {
          FirstEntry(path, n);
        }
        return;
      }
      if n.File? {
        ok, after := ScanFile(path, n, limit, seal);
      } else {
        ok, after := ScanChildren(path, n, limit, seal);
      }
    }

    method ScanChildren(path: string, n: Node, limit: nat, seal: bool) returns (ok: bool, after: Node)
      requires n.Directory? && total <= limit && |entries| < MAX_ENTRIES && PathOk(path)
      modifies this
      ensures ok <==> Scannable(|old(entries)|, old(total), path, n, limit)
      ensures ok ==>
                entries == old(entries) + Entries(path, n) && total == old(total) + Size(n)
                && after == Finished(n, seal)
      decreases n, 0, 1
    {
      hide PathOk, Entries, Size, Forest, SizeOfAll, Acceptable, Sort, Lists;
      DirectoryScannable(|entries|, total, path, n, limit);
      ok, after := false, n;
      entries := entries + [Entry(path, 0, true, None)];
      var listing := ReadDir(n.children.Keys);
      ListingOrderIrrelevant(listing, n.children.Keys);
      var names := Sort(listing);
      Listed(names, n.children.Keys);
      if |names| > MAX_ENTRIES {
        return;
      }
      var children;
      ok, children := ScanAll(path, n, names, limit, seal);
      assert children.Keys == n.children.Keys;
      after := Directory(if seal then READ_EXECUTE else n.mode, children);
    }

    method ScanAll(path: string, n: Node, names: seq<string>, limit: nat, seal: bool)
      returns (ok: bool, children: map<string, Node>)
      requires n.Directory? && total <= limit && |entries| <= MAX_ENTRIES
      requires forall c :: c in names ==> c in n.children
      modifies this
      ensures ok <==> ScannableAll(|old(entries)|, old(total), path, n, names, limit)
      ensures ok ==> entries == old(entries) + Forest(path, n, names) && total == old(total) + SizeOfAll(n, names)
      ensures forall c :: c in children <==> c in names
      ensures ok ==> forall c :: c in children ==> children[c] == Finished(n.children[c], seal)
      decreases n, 0, 0
    {
      hide Entries, Size, Forest, SizeOfAll, Acceptable, Finished;
      children := map c | c in names :: n.children[c];
      ghost var first, bytes := entries, total;
      NoChildren(path, n, names);
      for i := 0 to |names|
        invariant |entries| <= MAX_ENTRIES && total <= limit
        invariant entries + Forest(path, n, names[i..]) == first + Forest(path, n, names)
        invariant total + SizeOfAll(n, names[i..]) == bytes + SizeOfAll(n, names)
        invariant forall j :: 0 <= j < i ==> Acceptable(ChildPath(path, names[j]), n.children[names[j]])
        invariant forall c :: c in children <==> c in names
        invariant forall j :: 0 <= j < i ==> children[names[j]] == Finished(n.children[names[j]], seal)
      {
        NextChild(path, n, names, i);
        ghost var size := |entries|;
        var child;
        ok, child := Scan(ChildPath(path, names[i]), n.children[names[i]], limit, seal);
        if !ok {
          ChildFails(size, |first|, bytes, path, n, names, i, limit);
          return;
        }
        children := children[names[i] := child];
      }
      ok := true;
    }
  }

  /** A scan of several children succeeds when all are acceptable and fit together. */
  ghost predicate ScannableAll(entries: nat, total: nat, path: string, n: Node, names: seq<string>, limit: nat)
    requires n.Directory? && forall c :: c in names ==> c in n.children
  {
    && (forall c :: c in names ==> Acceptable(ChildPath(path, c), n.children[c]))
    && entries + |Forest(path, n, names)| <= MAX_ENTRIES && total + SizeOfAll(n, names) <= limit
  }

  lemma ChildFails(size: nat, first: nat, bytes: nat, path: string, n: Node, names: seq<string>, i: nat, limit: nat)
    requires n.Directory? && (forall c :: c in names ==> c in n.children) && i < |names|
    requires size + |Forest(path, n, names[i..])| == first + |Forest(path, n, names)|
    requires SizeOfAll(n, names[i..]) <= bytes + SizeOfAll(n, names)
    requires !Scannable(size, bytes + SizeOfAll(n, names) - SizeOfAll(n, names[i..]), ChildPath(path, names[i]),
                        n.children[names[i]], limit)
    ensures !ScannableAll(first, bytes, path, n, names, limit)
  {
    hide Entries, Size, Forest, SizeOfAll, Acceptable;
    NextChild(path, n, names, i);
  }

  lemma Listed(names: seq<string>, all: set<string>)
    requires names == Names(all)
    ensures Lists(names, all)
    ensures forall c :: c in names <==> c in all
  {
  }

  lemma NoChildren(path: string, n: Node, names: seq<string>)
    requires n.Directory? && forall c :: c in names ==> c in n.children
    ensures names[0..] == names && names[|names|..] == []
    ensures Forest(path, n, []) == [] && SizeOfAll(n, []) == 0
  {
  }

  // ---- manifests and verification ----

  datatype CacheManifest = CacheManifest(inputKey: string, entries: seq<Entry>)

  function Exports(artifacts: seq<Artifact>): (names: seq<string>)
    ensures |names| == |artifacts| && forall i :: 0 <= i < |artifacts| ==> names[i] == artifacts[i].name
  {
    seq(|artifacts|, i requires 0 <= i < |artifacts| => artifacts[i].name)
  }

  function Limit(a: Artifact): nat {
    a.maxSizeGib * 0x4000_0000
  }

  ghost predicate ExportOk(root: Node, a: Artifact) {
    && root.Directory? && a.name in root.children && root.children[a.name].Directory?
    && Acceptable(a.name, root.children[a.name]) && Size(root.children[a.name]) <= Limit(a)
  }

  /** When a manifest of the declared artifacts can be taken. */
  ghost predicate Capturable(root: Node, artifacts: seq<Artifact>) {
    && root.Directory? && (forall i :: 0 <= i < |artifacts| ==> ExportOk(root, artifacts[i]))
    && |Forest("", root, Exports(artifacts))| <= MAX_ENTRIES
  }

  /** The manifest of the declared artifacts, in declaration order. */
  ghost function ManifestOf(root: Node, artifacts: seq<Artifact>, key: string): CacheManifest
    requires Capturable(root, artifacts)
  {
    CacheManifest(key, Forest("", root, Exports(artifacts)))
  }

  /** The same directory with its declared artifacts sealed (or left alone). */
  ghost predicate SealedIn(root: Node, artifacts: seq<Artifact>, seal: bool, root': Node) {
    && root.Directory? && root'.Directory? && root'.children.Keys == root.children.Keys
    && forall c :: c in root.children ==>
         root'.children[c] == if c in Exports(artifacts) then Finished(root.children[c], seal) else root.children[c]
  }

  lemma ExportsIn(root: Node, artifacts: seq<Artifact>, i: nat)
    requires i <= |artifacts| && root.Directory?
    requires forall j :: 0 <= j < |artifacts| ==> artifacts[j].name in root.children
    ensures forall c :: c in Exports(artifacts) ==> c in root.children
    ensures forall c :: c in Exports(artifacts)[..i] ==> c in root.children
  {
  }

  lemma {:induction false} ForestSnoc(path: string, n: Node, names: seq<string>, c: string)
    requires n.Directory? && c in n.children && forall d :: d in names ==> d in n.children
    ensures Forest(path, n, names + [c]) == Forest(path, n, names) + Entries(ChildPath(path, c), n.children[c])
    decreases |names|
  {
    hide Entries;
    if names == [] {
      assert [c][1..] == [];
      assert Forest(path, n, [c]) == Entries(ChildPath(path, c), n.children[c]) + Forest(path, n, []);
    } else {
      assert (names + [c])[1..] == names[1..] + [c];
      ForestSnoc(path, n, names[1..], c);
    }
  }

  lemma {:induction false} ForestGrows(path: string, n: Node, names: seq<string>, i: nat)
    requires n.Directory? && i <= |names| && forall c :: c in names ==> c in n.children
    ensures |Forest(path, n, names[..i])| <= |Forest(path, n, names)|
    decreases |names| - i
  {
    hide Entries;
    if i < |names| {
      assert names[..i + 1] == names[..i] + [names[i]];
      ForestSnoc(path, n, names[..i], names[i]);
      ForestGrows(path, n, names, i + 1);
    } else {
      assert names[..i] == names;
    }
  }

  lemma NextExport(root: Node, artifacts: seq<Artifact>, i: nat)
    requires root.Directory? && i < |artifacts| && forall j :: 0 <= j <= i ==> artifacts[j].name in root.children
    ensures forall c :: c in Exports(artifacts)[..i + 1] ==> c in root.children
    ensures Forest("", root, Exports(artifacts)[..i + 1]) ==
            Forest("", root, Exports(artifacts)[..i]) + Entries(artifacts[i].name, root.children[artifacts[i].name])
  {
    hide Entries;
    var names := Exports(artifacts);
    assert names[..i + 1] == names[..i] + [names[i]];
    ForestSnoc("", root, names[..i], names[i]);
  }

  lemma ExportFails(root: Node, artifacts: seq<Artifact>, i: nat, entries: nat)
    requires root.Directory? && i < |artifacts| && (forall j :: 0 <= j <= i ==> artifacts[j].name in root.children)
    requires entries == |Forest("", root, Exports(artifacts)[..i])|
    requires !Scannable(entries, 0, artifacts[i].name, root.children[artifacts[i].name], Limit(artifacts[i]))
    ensures !Capturable(root, artifacts)
  {
    hide Entries, Size, Acceptable, Forest;
    NextExport(root, artifacts, i);
    if forall j :: 0 <= j < |artifacts| ==> ExportOk(root, artifacts[j]) {
      ExportsIn(root, artifacts, i);
      ForestGrows("", root, Exports(artifacts), i + 1);
    }
  }

  /** Takes the manifest, sealing the trees on the way if asked to. */
  method TakeManifest(root: Node, artifacts: seq<Artifact>, key: string, seal: bool)
    returns (r: Option<CacheManifest>, after: Node)
    ensures r.Some? <==> Capturable(root, artifacts)
    ensures r.Some? ==> r.value == ManifestOf(root, artifacts, key) && SealedIn(root, artifacts, seal, after)
  {
    hide Entries, Size, Acceptable, Forest, Finished;
    r, after := None, root;
    if !root.Directory? {
      return;
    }
    var scanner := new Scanner();
    NoChildren("", root, []);
    var children := root.children;
    assert Exports(artifacts)[..0] == [];
    for i := 0 to |artifacts|
      invariant |scanner.entries| <= MAX_ENTRIES && children.Keys == root.children.Keys
      invariant forall j :: 0 <= j < i ==> ExportOk(root, artifacts[j])
      invariant forall c :: c in Exports(artifacts)[..i] ==> c in root.children
      invariant scanner.entries == Forest("", root, Exports(artifacts)[..i])
      invariant forall c :: c in root.children ==>
                  children[c] == if c in Exports(artifacts)[..i] then Finished(root.children[c], seal)
                  else root.children[c]
    {
      var name := artifacts[i].name;
      if name !in root.children || !root.children[name].Directory? {
        assert !ExportOk(root, artifacts[i]);
        return;
      }
      NextExport(root, artifacts, i);
      scanner.total := 0;
      var ok, child := scanner.Scan(name, root.children[name], Limit(artifacts[i]), seal);
      if !ok {
        ExportFails(root, artifacts, i, |Forest("", root, Exports(artifacts)[..i])|);
        return;
      }
      assert Exports(artifacts)[..i + 1] == Exports(artifacts)[..i] + [name];
      children := children[name := child];
    }
    assert Exports(artifacts)[..|artifacts|] == Exports(artifacts);
    r := Some(CacheManifest(key, scanner.entries));
    after := Directory(root.mode, children);
  }

  /** A stored cache passes verification against a digest. */
  ghost predicate Verified(root: Node, artifacts: seq<Artifact>, key: string, digest: CacheManifest) {
    Capturable(root, artifacts) && ManifestOf(root, artifacts, key) == digest
  }

  /** Where an executor stages its caches. */
  datatype Staging = Staging(namespace: string, sourcePvc: string)

  /** A seed whose digest stands for the manifest it was computed from. */
  datatype CacheSeed = CacheSeed(config: Caching, inputKey: string, digest: CacheManifest, staging: Staging)

  predicate CacheSeedValid(seed: CacheSeed) {
    && CachingValid(seed.config) && ValidHex(seed.inputKey, 64)
    && Identifier(seed.staging.namespace) && Identifier(seed.staging.sourcePvc)
  }

  /** `verify` on the cache directory of a digest; nothing is sealed. */
  method Verify(staging: Staging, caches: map<CacheManifest, Node>, seed: CacheSeed) returns (ok: bool)
    ensures ok <==>
            && CacheSeedValid(seed) && seed.staging == staging && seed.digest in caches
            && Verified(caches[seed.digest], seed.config.artifacts, seed.inputKey, seed.digest)
  {
    hide CachingValid;
    var valid := Validate(seed.config);
    if !valid || !ValidHex(seed.inputKey, 64) || !Identifier(seed.staging.namespace)
       || !Identifier(seed.staging.sourcePvc) {
      return false;
    }
    if seed.staging != staging || seed.digest !in caches {
      return false;
    }
    var r, _ := TakeManifest(caches[seed.digest], seed.config.artifacts, seed.inputKey, false);
    return r == Some(seed.digest);
  }

  // ---- what verification means ----

  lemma {:induction false} SealSize(n: Node)
    ensures Size(Seal(n)) == Size(n)
    decreases n, 1, 0
  {
    if n.Directory? {
      assert Seal(n).children.Keys == n.children.Keys;
      SealSizes(n, Names(n.children.Keys));
    }
  }

  lemma {:induction false} SealSizes(n: Node, names: seq<string>)
    requires n.Directory? && forall c :: c in names ==> c in n.children
    ensures SizeOfAll(Seal(n), names) == SizeOfAll(n, names)
    decreases n, 0, |names|
  {
    if names != [] {
      SealSize(n.children[names[0]]);
      SealSizes(n, names[1..]);
    }
  }

  /** The trees of the declared artifacts are the same up to permissions other than executability. */
  ghost predicate SameTrees(root: Node, root': Node, artifacts: seq<Artifact>) {
    && root.Directory? && root'.Directory?
    && forall i :: 0 <= i < |artifacts| ==>
         && artifacts[i].name in root.children && artifacts[i].name in root'.children
         && Seal(root.children[artifacts[i].name]) == Seal(root'.children[artifacts[i].name])
  }

  lemma SameExport(n: Node, n': Node, path: string)
    requires Seal(n) == Seal(n')
    ensures Entries(path, n) == Entries(path, n') && (Acceptable(path, n) <==> Acceptable(path, n'))
            && Size(n) == Size(n')
    ensures n.Directory? <==> n'.Directory?
  {
    hide Entries, Acceptable, Size;
    SealInvisible(path, n);
    SealInvisible(path, n');
    SealSize(n);
    SealSize(n');
  }

  lemma {:induction false} SameForest(root: Node, root': Node, names: seq<string>)
    requires root.Directory? && root'.Directory?
    requires forall c :: c in names ==>
               c in root.children && c in root'.children && Seal(root.children[c]) == Seal(root'.children[c])
    ensures Forest("", root, names) == Forest("", root', names)
    decreases |names|
  {
    hide Entries, Seal;
    if names != [] {
      SameExport(root.children[names[0]], root'.children[names[0]], names[0]);
      SameForest(root, root', names[1..]);
    }
  }

  lemma UnchangedVerifies(root: Node, root': Node, artifacts: seq<Artifact>, key: string)
    requires Capturable(root, artifacts) && SameTrees(root, root', artifacts)
    ensures Verified(root', artifacts, key, ManifestOf(root, artifacts, key))
  {
    hide Entries, Acceptable, Size, Forest, Seal;
    forall i | 0 <= i < |artifacts|
      ensures ExportOk(root', artifacts[i])
    {
      SameExport(root.children[artifacts[i].name], root'.children[artifacts[i].name], artifacts[i].name);
    }
    SameForest(root, root', Exports(artifacts));
  }

  lemma VerifiedUnchanged(root: Node, root': Node, artifacts: seq<Artifact>, key: string)
    requires WellNamed(root) && WellNamed(root')
             && (forall i, j :: 0 <= i < j < |artifacts| ==> artifacts[i].name != artifacts[j].name)
    requires Capturable(root, artifacts) && Verified(root', artifacts, key, ManifestOf(root, artifacts, key))
    ensures SameTrees(root, root', artifacts)
  {
    hide Entries, Acceptable, Size, Forest, Seal;
    var names := Exports(artifacts);
    assert forall i :: 0 <= i < |artifacts| ==> ExportOk(root, artifacts[i]) && ExportOk(root', artifacts[i]);
    assert ChildrenOf(root, "", names) && ChildrenOf(root', "", names);
    ForestInjective("", root, names, root', names);
    assert forall i :: 0 <= i < |artifacts| ==> names[i] in names;
  }

  /** Verification of a captured cache succeeds exactly as long as its declared trees are
      unchanged in paths, bytes and executability. */
  lemma VerifyExact(root: Node, root': Node, config: Caching, key: string)
    requires CachingValid(config) && WellNamed(root) && WellNamed(root') && Capturable(root, config.artifacts)
    ensures Verified(root', config.artifacts, key, ManifestOf(root, config.artifacts, key)) <==>
            SameTrees(root, root', config.artifacts)
  {
    hide Entries, Acceptable, Size, Forest, Seal, Capturable, SameTrees, Verified, WellNamed, ArtifactValid;
    hide LimitsValid;
    assert forall i, j :: 0 <= i < j < |config.artifacts| ==> Apart(config.artifacts[i], config.artifacts[j]);
    if Verified(root', config.artifacts, key, ManifestOf(root, config.artifacts, key)) {
      VerifiedUnchanged(root, root', config.artifacts, key);
    }
    if SameTrees(root, root', config.artifacts) {
      UnchangedVerifies(root, root', config.artifacts, key);
    }
  }

  /** Right after preparation the sealed trees verify. */
  lemma SealedVerifies(root: Node, after: Node, artifacts: seq<Artifact>, key: string, seal: bool)
    requires Capturable(root, artifacts) && SealedIn(root, artifacts, seal, after)
    ensures Verified(after, artifacts, key, ManifestOf(root, artifacts, key))
  {
    hide Entries, Acceptable, Size, Forest, Seal, Verified;
    forall i | 0 <= i < |artifacts|
      ensures artifacts[i].name in root.children
              && Seal(root.children[artifacts[i].name]) == Seal(after.children[artifacts[i].name])
    {
      assert ExportOk(root, artifacts[i]);
      assert artifacts[i].name in Exports(artifacts);
      SealTwice(root.children[artifacts[i].name]);
    }
    UnchangedVerifies(root, after, artifacts, key);
  }
}
