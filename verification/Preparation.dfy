/** The tail of a cache preparation: budget, export, capture, publication. */
module Preparation {
  import opened Wrappers
  import opened Text
  import opened Config
  import opened Integrity
  import opened Seeds
  import opened CacheSeal
  import opened Capture

  // ---- paths as component lists ----

  ghost predicate IsPrefix(a: seq<string>, b: seq<string>) {
    |a| <= |b| && b[..|a|] == a
  }

  lemma PrefixTail(a: seq<string>, b: seq<string>)
    requires a != [] && b != [] && a[0] == b[0]
    ensures IsPrefix(a, b) <==> IsPrefix(a[1..], b[1..])
  {
    assert a == [a[0]] + a[1..] && b == [b[0]] + b[1..];
    if IsPrefix(a, b) {
      assert b[1..][..|a| - 1] == b[..|a|][1..];
    }
    if IsPrefix(a[1..], b[1..]) {
      assert b[..|a|] == [b[0]] + b[1..][..|a| - 1];
    }
  }

  /** The components of a nonempty path, from those of its tail. */
  lemma SplitTail(s: string)
    requires s != ""
    ensures var parts, rest := Split(s, '/'), Split(s[1..], '/');
            if s[0] == '/' then parts[0] == "" && parts[1..] == rest
            else parts[0] == [s[0]] + rest[0] && parts[1..] == rest[1..]
  {
  }

  /** A path whose components begin another path is that path or one of its directories. */
  lemma {:induction false} ComponentPrefix(a: string, b: string)
    requires IsPrefix(Split(a, '/'), Split(b, '/'))
    ensures a == b || IsAncestor(a, b)
    decreases |a|
  {
    var p, q := Split(a, '/'), Split(b, '/');
    assert q[0] == p[0] by {
      assert q[..|p|][0] == q[0];
    }
    if a != "" {
      SplitTail(a);
      if b != "" {
        SplitTail(b);
        var p1, q1 := Split(a[1..], '/'), Split(b[1..], '/');
        assert p[0] != "" ==> p[0][0] == a[0] && q[0][0] == b[0];
        PrefixTail(p, q);
        if a[0] != '/' {
          assert p1[0] == p[0][1..] == q1[0];
          PrefixTail(p1, q1);
        }
        ComponentPrefix(a[1..], b[1..]);
        assert a == [a[0]] + a[1..] && b == [b[0]] + b[1..];
      }
    }
  }

  lemma DisjointComponents(a: string, b: string)
    requires Disjoint(a, b)
    ensures !IsPrefix(Split(a, '/'), Split(b, '/')) && !IsPrefix(Split(b, '/'), Split(a, '/'))
  {
    if IsPrefix(Split(a, '/'), Split(b, '/')) {
      ComponentPrefix(a, b);
    }
    if IsPrefix(Split(b, '/'), Split(a, '/')) {
      ComponentPrefix(b, a);
    }
  }

  // ---- moving subtrees ----

  /** The node reached through real directories only. */
  function Subtree(n: Node, steps: seq<string>): Option<Node>
    decreases steps
  {
    if steps == [] then Some(n)
    else if n.Directory? && steps[0] in n.children then Subtree(n.children[steps[0]], steps[1..])
    else None
  }

  function Without(n: Node, steps: seq<string>): Node
    requires steps != [] && Subtree(n, steps).Some?
    decreases steps
  {
    if |steps| == 1 then Directory(n.mode, n.children - {steps[0]})
    else Directory(n.mode, n.children[steps[0] := Without(n.children[steps[0]], steps[1..])])
  }

  /** Moving one subtree away leaves every subtree it is disjoint from intact. */
  lemma {:induction false} MoveLeaves(n: Node, gone: seq<string>, kept: seq<string>)
    requires gone != [] && Subtree(n, gone).Some? && !IsPrefix(gone, kept) && !IsPrefix(kept, gone)
    ensures Subtree(Without(n, gone), kept) == Subtree(n, kept)
    decreases |gone|
  {
    assert kept != [];
    if kept[0] == gone[0] && |gone| > 1 {
      PrefixTail(gone, kept);
      PrefixTail(kept, gone);
      MoveLeaves(n.children[gone[0]], gone[1..], kept[1..]);
    } else if |gone| == 1 {
      assert gone == [gone[0]];
      assert kept[..1] == [kept[0]];
    }
  }

  function Steps(a: Artifact): (steps: seq<string>)
    ensures steps != []
  {
    Split(a.path, '/')
  }

  /** The declared output is a directory reached through real directories. */
  predicate Produced(output: Node, a: Artifact) {
    Subtree(output, Steps(a)).Some? && Subtree(output, Steps(a)).value.Directory?
  }

  /** The moved directory, made writable for the move. */
  function Moved(output: Node, a: Artifact): Node
    requires Produced(output, a)
  {
    Directory(MOVABLE, Subtree(output, Steps(a)).value.children)
  }

  /** The walk to one output, component by component. */
  method Walk(output: Node, a: Artifact) returns (ok: bool)
    requires output.Directory?
    ensures ok <==> Produced(output, a)
  {
    var steps := Steps(a);
    var n := output;
    for i := 0 to |steps|
      invariant n.Directory? && Subtree(output, steps) == Subtree(n, steps[i..])
    {
      if steps[i] !in n.children || !n.children[steps[i]].Directory? {
        Blocked(n, steps[i..]);
        return false;
      }
      assert steps[i..][1..] == steps[i + 1..];
      n := n.children[steps[i]];
    }
    return true;
  }

  lemma Blocked(n: Node, steps: seq<string>)
    requires n.Directory? && steps != [] && (steps[0] !in n.children || !n.children[steps[0]].Directory?)
    ensures Subtree(n, steps).Some? ==> !Subtree(n, steps).value.Directory?
  {
  }

  /** The rename loop: each declared output arrives intact, whatever was moved before it. */
  method Export(output: Node, artifacts: seq<Artifact>) returns (r: Option<map<string, Node>>)
    requires output.Directory? && forall i, j :: 0 <= i < j < |artifacts| ==> Apart(artifacts[i], artifacts[j])
    ensures r.Some? <==> forall i :: 0 <= i < |artifacts| ==> Produced(output, artifacts[i])
    ensures r.Some? ==> forall i :: 0 <= i < |artifacts| ==>
              Produced(output, artifacts[i]) && artifacts[i].name in r.value
              && r.value[artifacts[i].name] == Moved(output, artifacts[i])
    ensures r.Some? ==> forall c :: c in r.value ==> c in Exports(artifacts)
  {
    hide Subtree, Without, Apart, Steps;
    var tree := output;
    var exports: map<string, Node> := map[];
    for i := 0 to |artifacts|
      invariant tree.Directory?
      invariant forall j :: i <= j < |artifacts| ==>
                  Subtree(tree, Steps(artifacts[j])) == Subtree(output, Steps(artifacts[j]))
      invariant forall j :: 0 <= j < i ==>
                  Produced(output, artifacts[j]) && artifacts[j].name in exports
                  && exports[artifacts[j].name] == Moved(output, artifacts[j])
      invariant forall c :: c in exports ==> c in Exports(artifacts)
    {
      var a := artifacts[i];
      var produced := Walk(tree, a);
      if !produced {
        assert !Produced(output, artifacts[i]);
        return None;
      }
      forall j | i < j < |artifacts|
        ensures Subtree(Without(tree, Steps(a)), Steps(artifacts[j])) == Subtree(tree, Steps(artifacts[j]))
      {
        StepsApart(a, artifacts[j]);
        MoveLeaves(tree, Steps(a), Steps(artifacts[j]));
      }
      NamesApart(artifacts, i);
      exports := exports[a.name := Moved(tree, a)];
      assert Exports(artifacts)[i] == a.name;
      tree := Rest(tree, a);
    }
    return Some(exports);
  }

  function Rest(tree: Node, a: Artifact): (rest: Node)
    requires Produced(tree, a)
    ensures rest.Directory? && rest == Without(tree, Steps(a))
  {
    Without(tree, Steps(a))
  }

  lemma NamesApart(artifacts: seq<Artifact>, i: nat)
    requires i < |artifacts| && forall i, j :: 0 <= i < j < |artifacts| ==> Apart(artifacts[i], artifacts[j])
    ensures forall j :: 0 <= j < i ==> artifacts[j].name != artifacts[i].name
  {
    forall j | 0 <= j < i
      ensures artifacts[j].name != artifacts[i].name
    {
      assert Apart(artifacts[j], artifacts[i]);
    }
  }

  lemma StepsApart(a: Artifact, b: Artifact)
    requires Apart(a, b)
    ensures !IsPrefix(Steps(a), Steps(b)) && !IsPrefix(Steps(b), Steps(a))
  {
    DisjointComponents(a.path, b.path);
  }

  // ---- publication ----

  /** The export directory holds exactly the declared outputs. */
  ghost predicate IsExport(output: Node, artifacts: seq<Artifact>, root: Node) {
    && root.Directory? && (forall c :: c in root.children <==> c in Exports(artifacts))
    && forall i :: 0 <= i < |artifacts| ==>
         Produced(output, artifacts[i]) && artifacts[i].name in root.children
         && root.children[artifacts[i].name] == Moved(output, artifacts[i])
  }

  /** Exports, captures, seals and installs a cache, then verifies what is installed. */
  method Publish(staging: Staging, caches: map<CacheManifest, Node>, output: Node, config: Caching, key: string)
    returns (r: Option<CacheManifest>, caches': map<CacheManifest, Node>, ghost root: Node)
    requires CachingValid(config) && output.Directory? && ValidHex(key, 64)
    ensures r.Some? ==>
              && IsExport(output, config.artifacts, root) && Capturable(root, config.artifacts)
              && r.value == ManifestOf(root, config.artifacts, key)
              && r.value in caches' && Verified(caches'[r.value], config.artifacts, key, r.value)
    ensures forall d :: d in caches ==> d in caches' && caches'[d] == caches[d]
    ensures r.None? ==>
              || (exists i :: 0 <= i < |config.artifacts| && !Produced(output, config.artifacts[i]))
              || !Identifier(staging.namespace) || !Identifier(staging.sourcePvc)
              || !Capturable(root, config.artifacts)
              || (var d := ManifestOf(root, config.artifacts, key);
                  d in caches && !Verified(caches[d], config.artifacts, key, d))
  {
    hide Verified, Capturable, ArtifactValid, LimitsValid, Produced, Apart, SealedIn, Identifier;
    r, caches', root := None, caches, output;
    var exports := Export(output, config.artifacts);
    if exports.None? {
      return;
    }
    var exported := Directory(MOVABLE, exports.value);
    root := exported;
    assert forall c :: c in Exports(config.artifacts) ==> c in exports.value;
    var manifest, sealed := TakeManifest(exported, config.artifacts, key, true);
    if manifest.None? {
      return;
    }
    SealedVerifies(exported, sealed, config.artifacts, key, true);
    var digest := manifest.value;
    if digest !in caches {
      caches' := caches[digest := sealed];
    }
    var ok := Verify(staging, caches', CacheSeed(config, key, digest, staging));
    if ok {
      r := manifest;
    }
  }

  lemma {:induction false} SubtreeWellNamed(n: Node, steps: seq<string>)
    requires WellNamed(n) && Subtree(n, steps).Some?
    ensures WellNamed(Subtree(n, steps).value)
    decreases steps
  {
    if steps != [] {
      SubtreeWellNamed(n.children[steps[0]], steps[1..]);
    }
  }

  lemma ExportWellNamed(output: Node, artifacts: seq<Artifact>, root: Node)
    requires WellNamed(output) && IsExport(output, artifacts, root)
    requires forall i :: 0 <= i < |artifacts| ==> ArtifactValid(artifacts[i])
    ensures WellNamed(root)
  {
    hide Subtree, Steps, SafePath, MountValid;
    forall c | c in root.children
      ensures NameOk(c) && WellNamed(root.children[c])
    {
      var i :| 0 <= i < |artifacts| && Exports(artifacts)[i] == c;
      assert ArtifactValid(artifacts[i]);
      SubtreeWellNamed(output, Steps(artifacts[i]));
    }
  }

  /** A published cache verifies later exactly as long as the stored trees are what the
      preparation produced at the declared paths. */
  lemma PublishedExact(output: Node, root: Node, now: Node, config: Caching, key: string)
    requires CachingValid(config) && WellNamed(output) && WellNamed(now)
    requires IsExport(output, config.artifacts, root) && Capturable(root, config.artifacts)
    ensures Verified(now, config.artifacts, key, ManifestOf(root, config.artifacts, key)) <==>
            now.Directory? && forall i :: 0 <= i < |config.artifacts| ==>
              && Produced(output, config.artifacts[i]) && config.artifacts[i].name in now.children
              && Seal(now.children[config.artifacts[i].name]) == Seal(Moved(output, config.artifacts[i]))
  {
    hide Verified, Capturable, ArtifactValid, LimitsValid, Apart, Seal, WellNamed, Produced;
    ExportWellNamed(output, config.artifacts, root);
    VerifyExact(root, now, config, key);
  }

  // ---- the temporary output ----

  /** How many entries and bytes lie below a directory. */
  datatype Census = Census(entries: nat, bytes: nat)

  function Plus(a: Census, b: Census): Census {
    Census(a.entries + b.entries, a.bytes + b.bytes)
  }

  lemma PlusSwap(a: Census, b: Census, c: Census)
    ensures Plus(a, Plus(b, c)) == Plus(b, Plus(a, c))
  {
  }

  function LengthOf(n: Node): nat {
    match n
    case File(_, content, _) => |content|
    case Directory(_, _) => 0
    case Special(length) => length
  }

  ghost function CensusOf(n: Node): Census
    decreases n, 1, 0
  {
    if n.Directory? then CensusOver(n, n.children.Keys) else Census(0, 0)
  }

  ghost function CensusOver(n: Node, names: set<string>): Census
    requires n.Directory? && names <= n.children.Keys
    decreases n, 0, |names|
  {
    if names == {} then Census(0, 0)
    else
      var c :| c in names;
      Plus(Plus(Census(1, LengthOf(n.children[c])), CensusOf(n.children[c])), CensusOver(n, names - {c}))
  }

  ghost function Own(n: Node): Census {
    Plus(Census(1, LengthOf(n)), CensusOf(n))
  }

  lemma {:induction false} CensusPick(n: Node, names: set<string>, c: string)
    requires n.Directory? && names <= n.children.Keys && c in names
    ensures CensusOver(n, names) == Plus(Own(n.children[c]), CensusOver(n, names - {c}))
    decreases names
  {
    hide CensusOf;
    var d :| d in names && CensusOver(n, names) == Plus(Own(n.children[d]), CensusOver(n, names - {d}));
    if d != c {
      CensusPick(n, names - {d}, c);
      CensusPick(n, names - {c}, d);
      var rest := names - {c} - {d};
      assert names - {d} - {c} == rest;
      assert CensusOver(n, names - {d}) == Plus(Own(n.children[c]), CensusOver(n, rest));
      assert CensusOver(n, names - {c}) == Plus(Own(n.children[d]), CensusOver(n, rest));
      PlusSwap(Own(n.children[c]), Own(n.children[d]), CensusOver(n, rest));
    }
  }

  /** No directory lies deeper than the limit. */
  ghost predicate Shallow(n: Node, depth: nat)
    decreases n
  {
    n.Directory? ==> depth <= MAX_DEPTH && forall c :: c in n.children ==> Shallow(n.children[c], depth + 1)
  }

  datatype Pending = Pending(node: Node, depth: nat)

  ghost function PendingCensus(todo: seq<Pending>): Census {
    if todo == [] then Census(0, 0) else Plus(PendingCensus(todo[..|todo| - 1]), CensusOf(todo[|todo| - 1].node))
  }

  lemma PendingPush(todo: seq<Pending>, p: Pending)
    ensures PendingCensus(todo + [p]) == Plus(PendingCensus(todo), CensusOf(p.node))
  {
    hide CensusOf;
    assert (todo + [p])[..|todo|] == todo;
  }

  ghost predicate AllShallow(todo: seq<Pending>) {
    forall i :: 0 <= i < |todo| ==> Shallow(todo[i].node, todo[i].depth)
  }

  lemma ShallowPush(todo: seq<Pending>, p: Pending)
    ensures AllShallow(todo + [p]) <==> AllShallow(todo) && Shallow(p.node, p.depth)
  {
    hide Shallow;
    if AllShallow(todo + [p]) {
      assert (todo + [p])[|todo|] == p;
      assert forall i :: 0 <= i < |todo| ==> (todo + [p])[i] == todo[i];
    }
  }

  lemma PushDown(n: Node, names: set<string>, c: string, todo: seq<Pending>, depth: nat)
    requires n.Directory? && names <= n.children.Keys && c in names
    ensures CensusOver(n, names) == Plus(Own(n.children[c]), CensusOver(n, names - {c}))
    ensures PendingCensus(todo + [Pending(n.children[c], depth)]) == Plus(PendingCensus(todo), CensusOf(n.children[c]))
    ensures !n.children[c].Directory? ==> CensusOf(n.children[c]) == Census(0, 0)
    ensures n.children[c].Directory? ==> LengthOf(n.children[c]) == 0
  {
    CensusPick(n, names, c);
    PendingPush(todo, Pending(n.children[c], depth));
  }

  ghost predicate ShallowIn(n: Node, names: set<string>, depth: nat)
    requires n.Directory? && names <= n.children.Keys
  {
    forall c :: c in names ==> Shallow(n.children[c], depth)
  }

  lemma ShallowPick(n: Node, names: set<string>, c: string, depth: nat)
    requires n.Directory? && names <= n.children.Keys && c in names
    ensures ShallowIn(n, names, depth) <==> Shallow(n.children[c], depth) && ShallowIn(n, names - {c}, depth)
    ensures !n.children[c].Directory? ==> Shallow(n.children[c], depth)
  {
  }

  /** What has been counted, what is pending and the rest make up the total. */
  ghost predicate Counted(count: nat, bytes: nat, pending: seq<Pending>, rest: Census, total: Census) {
    && count + PendingCensus(pending).entries + rest.entries == total.entries
    && bytes + PendingCensus(pending).bytes + rest.bytes == total.bytes
  }

  ghost predicate Directories(pending: seq<Pending>) {
    forall i :: 0 <= i < |pending| ==> pending[i].node.Directory?
  }

  /** One directory of the worklist: its entries are counted and its subdirectories queued. */
  method CountEntries(n: Node, depth: nat, before: seq<Pending>, counted: nat, size: nat, limit: nat,
                      ghost total: Census)
    returns (ok: bool, pending: seq<Pending>, count: nat, bytes: nat)
    requires n.Directory? && Directories(before) && counted <= MAX_ENTRIES && size <= limit
    requires Counted(counted, size, before, CensusOver(n, n.children.Keys), total)
    ensures ok ==>
              Directories(pending) && count <= MAX_ENTRIES && bytes <= limit
              && Counted(count, bytes, pending, Census(0, 0), total)
    ensures ok ==> (AllShallow(pending) <==> AllShallow(before) && ShallowIn(n, n.children.Keys, depth))
    ensures ok ==>
              PendingCensus(pending).entries + |pending| <= PendingCensus(before).entries + |before|
              + CensusOver(n, n.children.Keys).entries
    ensures !ok ==> total.entries > MAX_ENTRIES || total.bytes > limit
  {
    hide CensusOf, CensusOver, PendingCensus, Shallow, AllShallow, ShallowIn, LengthOf;
    ok, pending, count, bytes := false, before, counted, size;
    var names := n.children.Keys;
    while names != {}
      invariant names <= n.children.Keys && Directories(pending) && count <= MAX_ENTRIES && bytes <= limit
      invariant Counted(count, bytes, pending, CensusOver(n, names), total)
      invariant AllShallow(before) && ShallowIn(n, n.children.Keys, depth) <==>
                AllShallow(pending) && ShallowIn(n, names, depth)
      invariant PendingCensus(pending).entries + |pending| + CensusOver(n, names).entries
             <= PendingCensus(before).entries + |before| + CensusOver(n, n.children.Keys).entries
      decreases |names|
    {
      var c :| c in names;
      var child := n.children[c];
      PushDown(n, names, c, pending, depth);
      ShallowPick(n, names, c, depth);
      ShallowPush(pending, Pending(child, depth));
      count := count + 1;
      if count > MAX_ENTRIES {
        return;
      }
      if child.Directory? {
        pending := pending + [Pending(child, depth)];
      } else {
        bytes := bytes + LengthOf(child);
      }
      if bytes > limit {
        return;
      }
      names := names - {c};
    }
    NothingLeft(n, depth);
    ok := true;
  }

  /** The worklist accepts exactly the trees within the limits on entries, bytes and nesting. */
  method OutputBudget(root: Node, limit: nat) returns (ok: bool)
    requires root.Directory?
    ensures ok <==> Shallow(root, 0) && CensusOf(root).entries <= MAX_ENTRIES && CensusOf(root).bytes <= limit
  {
    hide CensusOf, CensusOver, PendingCensus, Shallow, AllShallow, ShallowIn;
    var pending := [Pending(root, 0)];
    var count: nat, bytes: nat := 0, 0;
    OnlyPending(root);
    while pending != []
      invariant Directories(pending) && count <= MAX_ENTRIES && bytes <= limit
      invariant Counted(count, bytes, pending, Census(0, 0), CensusOf(root))
      invariant Shallow(root, 0) <==> AllShallow(pending)
      decreases PendingCensus(pending).entries + |pending|
    {
      var p := pending[|pending| - 1];
      Popped(pending);
      if p.depth > MAX_DEPTH {
        TooDeep(p.node, p.depth);
        return false;
      }
      Opened(p.node, p.depth);
      var counted;
      counted, pending, count, bytes :=
        CountEntries(p.node, p.depth + 1, pending[..|pending| - 1], count, bytes, limit, CensusOf(root));
      if !counted {
        return false;
      }
    }
    NonePending();
    return true;
  }

  lemma OnlyPending(root: Node)
    ensures PendingCensus([Pending(root, 0)]) == CensusOf(root)
            && (AllShallow([Pending(root, 0)]) <==> Shallow(root, 0))
  {
    hide CensusOf, Shallow, PendingCensus, AllShallow;
    var one := [Pending(root, 0)];
    Popped(one);
    assert one[..0] == [];
    NonePending();
  }

  lemma Popped(todo: seq<Pending>)
    requires todo != []
    ensures var last := todo[|todo| - 1]; var rest := todo[..|todo| - 1];
            && PendingCensus(todo) == Plus(PendingCensus(rest), CensusOf(last.node))
            && (AllShallow(todo) <==> AllShallow(rest) && Shallow(last.node, last.depth))
  {
    hide CensusOf, Shallow;
    var last, rest := todo[|todo| - 1], todo[..|todo| - 1];
    assert todo == rest + [last];
    ShallowPush(rest, last);
  }

  lemma Opened(n: Node, depth: nat)
    requires n.Directory? && depth <= MAX_DEPTH
    ensures CensusOf(n) == CensusOver(n, n.children.Keys)
    ensures Shallow(n, depth) <==> ShallowIn(n, n.children.Keys, depth + 1)
  {
  }

  lemma TooDeep(n: Node, depth: nat)
    requires n.Directory? && depth > MAX_DEPTH
    ensures !Shallow(n, depth)
  {
  }

  lemma NothingLeft(n: Node, depth: nat)
    requires n.Directory?
    ensures CensusOver(n, {}) == Census(0, 0) && ShallowIn(n, {}, depth)
  {
  }

  lemma NonePending()
    ensures PendingCensus([]) == Census(0, 0) && AllShallow([])
  {
  }

  // ---- what a cache can hold ----

  function Joined(path: string, steps: seq<string>): string
    decreases steps
  {
    if steps == [] then path else Joined(ChildPath(path, steps[0]), steps[1..])
  }

  /** A regular file without further hard links or a directory, under a safe path of at most 32 names. */
  predicate Plain(path: string, n: Node) {
    SafePath(path) && |Split(path, '/')| <= 32 && (n.Directory? || (n.File? && n.links == 1))
  }

  lemma {:induction false} PlainBelow(path: string, n: Node, steps: seq<string>)
    requires Acceptable(path, n) && Subtree(n, steps).Some?
    ensures Plain(Joined(path, steps), Subtree(n, steps).value)
    decreases steps
  {
    hide SafePath;
    if steps != [] {
      PlainBelow(ChildPath(path, steps[0]), n.children[steps[0]], steps[1..]);
    }
  }

  lemma {:induction false} NotPlain(path: string, n: Node) returns (steps: seq<string>)
    requires !Acceptable(path, n)
    ensures Subtree(n, steps).Some? && !Plain(Joined(path, steps), Subtree(n, steps).value)
    decreases n
  {
    hide SafePath;
    if Plain(path, n) {
      var c :| c in n.children && !Acceptable(ChildPath(path, c), n.children[c]);
      var rest := NotPlain(ChildPath(path, c), n.children[c]);
      steps := [c] + rest;
      assert steps[1..] == rest;
    } else {
      steps := [];
    }
  }

  /** A tree is acceptable if and only if everything in it is, however deep. */
  lemma AcceptableIff(path: string, n: Node)
    ensures Acceptable(path, n) <==>
            forall steps: seq<string> :: Subtree(n, steps).Some? ==> Plain(Joined(path, steps), Subtree(n, steps).value)
  {
    hide Acceptable, Plain, Subtree, Joined;
    if Acceptable(path, n) {
      forall steps: seq<string> | Subtree(n, steps).Some?
        ensures Plain(Joined(path, steps), Subtree(n, steps).value)
      {
        PlainBelow(path, n, steps);
      }
    } else {
      var steps := NotPlain(path, n);
    }
  }

  const WRITE_BITS: Mode := 0x92

  /** Nobody can write to what is sealed: names and contents are all there, no file or directory has
      a write bit, and exactly the executable files stay executable. */
  lemma {:induction false} SealedReadOnly(n: Node, steps: seq<string>)
    ensures Subtree(Seal(n), steps).Some? <==> Subtree(n, steps).Some?
    ensures Subtree(n, steps).Some? ==>
              var m, m' := Subtree(n, steps).value, Subtree(Seal(n), steps).value;
              && (m.Directory? ==> m'.Directory? && m'.mode & WRITE_BITS == 0 && m'.children.Keys == m.children.Keys)
              && (m.File? ==> m'.File? && m'.mode & WRITE_BITS == 0 && m'.content == m.content
                              && (Executable(m'.mode) <==> Executable(m.mode)))
    decreases steps
  {
    if steps != [] && n.Directory? && steps[0] in n.children {
      SealedReadOnly(n.children[steps[0]], steps[1..]);
    }
  }
}
