/** Content-addressed cache artifacts: capture, sealing and verification of directory trees.

    The digest of a manifest is modelled by the manifest itself. */
module CacheSeal {
  import opened Wrappers
  import opened Text
  import opened Integrity

  /** Permission bits, three octal digits. */
  type Mode = bv9

  const EXECUTE_BITS: Mode := 0x49
  const READ_EXECUTE: Mode := 0x16D
  const READ_ONLY: Mode := 0x124
  const MOVABLE: Mode := 0x1ED

  datatype Node =
    | File(mode: Mode, content: Bytes, links: nat)
    | Directory(mode: Mode, children: map<string, Node>)
    | Special(length: nat)

  const MAX_ENTRIES := 100_000
  const MAX_DEPTH := 32

  /** A directory has no hash; a file's hash is its content. */
  datatype Entry = Entry(path: string, bytes: nat, executable: bool, hash: Option<Bytes>)

  predicate Executable(mode: Mode) {
    mode & EXECUTE_BITS != 0
  }

  function ChildPath(parent: string, name: string): string {
    if parent == "" then name else parent + "/" + name
  }

  /** What a file system guarantees about names. */
  predicate NameOk(name: string) {
    name != "" && '/' !in name
  }

  ghost predicate WellNamed(n: Node) {
    n.Directory? ==> forall c :: c in n.children ==> NameOk(c) && WellNamed(n.children[c])
  }

  // ---- the order of names ----

  ghost predicate Sorted(names: seq<string>) {
    forall i, j :: 0 <= i < j < |names| ==> Less(names[i], names[j])
  }

  ghost predicate Lists(names: seq<string>, all: set<string>) {
    forall c :: c in names <==> c in all
  }

  function Insert(x: string, names: seq<string>): seq<string> {
    if names == [] || Less(x, names[0]) then [x] + names else [names[0]] + Insert(x, names[1..])
  }

  /** `sort_by_key` on a directory listing. */
  function Sort(names: seq<string>): seq<string> {
    if names == [] then [] else Insert(names[0], Sort(names[1..]))
  }

  lemma SortedCons(x: string, names: seq<string>)
    requires Sorted(names) && forall c :: c in names ==> Less(x, c)
    ensures Sorted([x] + names)
  {
    hide Less;
  }

  lemma SortedHead(names: seq<string>, x: string)
    requires Sorted(names) && names != []
    ensures Sorted(names[1..]) && forall c :: c in names[1..] ==> Less(names[0], c)
    ensures Less(x, names[0]) ==> forall c :: c in names ==> Less(x, c)
  {
    hide Less;
    if Less(x, names[0]) {
      forall c | c in names
        ensures Less(x, c)
      {
        var j :| 0 <= j < |names| && names[j] == c;
        if j > 0 {
          LessTransitive(x, names[0], names[j]);
        }
      }
    }
  }

  lemma {:induction false} InsertSorts(x: string, names: seq<string>)
    requires Sorted(names) && x !in names
    ensures Sorted(Insert(x, names))
    ensures forall c :: c in Insert(x, names) <==> c == x || c in names
  {
    hide Less, Sorted;
    if names == [] {
      SortedOne(x);
    } else {
      SortedHead(names, x);
      if Less(x, names[0]) {
        SortedCons(x, names);
      } else {
        LessTotal(x, names[0]);
        InsertSorts(x, names[1..]);
        SortedCons(names[0], Insert(x, names[1..]));
        assert names == [names[0]] + names[1..];
      }
    }
  }

  lemma SortedOne(x: string)
    ensures Sorted([x] + []) && Sorted([])
  {
  }

  lemma {:induction false} SortSorts(names: seq<string>)
    requires forall i, j :: 0 <= i < j < |names| ==> names[i] != names[j]
    ensures Sorted(Sort(names)) && forall c :: c in Sort(names) <==> c in names
  {
    hide Less, Insert;
    if names != [] {
      SortSorts(names[1..]);
      InsertSorts(names[0], Sort(names[1..]));
      assert names == [names[0]] + names[1..];
    }
  }

  /** There is one sorted list of a set of names. */
  lemma {:induction false} SortedUnique(a: seq<string>, b: seq<string>)
    requires Sorted(a) && Sorted(b) && forall c :: c in a <==> c in b
    ensures a == b
    decreases |a|
  {
    hide Less;
    assert a != [] ==> a[0] in b;
    assert b != [] ==> b[0] in a;
    if a != [] {
      SameFirst(a, b);
      NotFirst(a);
      NotFirst(b);
      forall c
        ensures c in a[1..] <==> c in b[1..]
      {
        assert c in a <==> c == a[0] || c in a[1..];
        assert c in b <==> c == b[0] || c in b[1..];
      }
      SortedUnique(a[1..], b[1..]);
    }
  }

  lemma NotFirst(a: seq<string>)
    requires Sorted(a) && a != []
    ensures a[0] !in a[1..]
  {
    if a[0] in a[1..] {
      var j :| 0 <= j < |a[1..]| && a[1..][j] == a[0];
      LessTotal(a[0], a[j + 1]);
    }
  }

  lemma SameFirst(a: seq<string>, b: seq<string>)
    requires Sorted(a) && Sorted(b) && a != [] && b != [] && forall c :: c in a <==> c in b
    ensures a[0] == b[0]
  {
    hide Less;
    assert a[0] in b && b[0] in a;
    var i :| 0 <= i < |b| && b[i] == a[0];
    var j :| 0 <= j < |a| && a[j] == b[0];
    LessTotal(a[0], b[0]);
  }

  lemma {:induction false} SomeListing(all: set<string>) returns (names: seq<string>)
    ensures Lists(names, all) && forall i, j :: 0 <= i < j < |names| ==> names[i] != names[j]
  {
    if all == {} {
      names := [];
    } else {
      var x :| x in all;
      var rest := SomeListing(all - {x});
      names := [x] + rest;
    }
  }

  lemma SortedExists(all: set<string>)
    ensures exists names :: Sorted(names) && Lists(names, all)
  {
    var names := SomeListing(all);
    SortSorts(names);
    assert Sorted(Sort(names)) && Lists(Sort(names), all);
  }

  /** The names of a directory in order. */
  ghost function Names(all: set<string>): (names: seq<string>)
    ensures Sorted(names) && Lists(names, all)
  {
    SortedExists(all);
    var names :| Sorted(names) && Lists(names, all);
    names
  }

  /** Whatever order a directory is listed in, sorting it gives the same sequence. */
  lemma ListingOrderIrrelevant(listing: seq<string>, all: set<string>)
    requires Lists(listing, all) && forall i, j :: 0 <= i < j < |listing| ==> listing[i] != listing[j]
    ensures Sort(listing) == Names(all)
  {
    SortSorts(listing);
    SortedUnique(Sort(listing), Names(all));
  }

  // ---- what a capture records ----

  ghost function Entries(path: string, n: Node): seq<Entry>
    decreases n, 1, 0
  {
    match n
    case File(mode, content, _) => [Entry(path, |content|, Executable(mode), Some(content))]
    case Directory(_, children) => [Entry(path, 0, true, None)] + Forest(path, n, Names(children.Keys))
    case Special(_) => []
  }

  /** The entries below a directory, child by child. */
  ghost function Forest(path: string, n: Node, names: seq<string>): seq<Entry>
    requires n.Directory? && forall c :: c in names ==> c in n.children
    decreases n, 0, |names|
  {
    if names == [] then []
    else Entries(ChildPath(path, names[0]), n.children[names[0]]) + Forest(path, n, names[1..])
  }

  predicate PathOk(path: string) {
    SafePath(path) && |Split(path, '/')| <= MAX_DEPTH
  }

  /** Only directories and regular files without further hard links, under acceptable paths. */
  ghost predicate Acceptable(path: string, n: Node)
    decreases n
  {
    && PathOk(path) && !n.Special? && (n.File? ==> n.links == 1)
    && (n.Directory? ==> forall c :: c in n.children ==> Acceptable(ChildPath(path, c), n.children[c]))
  }

  /** Sealing keeps one bit of the permissions: whether a file is executable. */
  function Seal(n: Node): Node {
    match n
    case File(mode, content, links) => File(if Executable(mode) then READ_EXECUTE else READ_ONLY, content, links)
    case Directory(_, children) => Directory(READ_EXECUTE, map c | c in children :: Seal(children[c]))
    case Special(_) => n
  }

  lemma SealedBits(mode: Mode)
    ensures Executable(if Executable(mode) then READ_EXECUTE else READ_ONLY) == Executable(mode)
  {
  }

  /** Sealing does not change what a capture records. */
  lemma {:induction false} SealInvisible(path: string, n: Node)
    ensures Entries(path, Seal(n)) == Entries(path, n)
    ensures Acceptable(path, Seal(n)) <==> Acceptable(path, n)
    decreases n, 1, 0
  {
    if n.File? {
      SealedBits(n.mode);
    } else if n.Directory? {
      assert Seal(n).children.Keys == n.children.Keys;
      SealForest(path, n, Names(n.children.Keys));
      forall c | c in n.children
        ensures Acceptable(ChildPath(path, c), Seal(n).children[c]) <==> Acceptable(ChildPath(path, c), n.children[c])
      {
        SealInvisible(ChildPath(path, c), n.children[c]);
      }
    }
  }

  lemma {:induction false} SealForest(path: string, n: Node, names: seq<string>)
    requires n.Directory? && forall c :: c in names ==> c in n.children
    ensures Forest(path, Seal(n), names) == Forest(path, n, names)
    decreases n, 0, |names|
  {
    if names != [] {
      SealInvisible(ChildPath(path, names[0]), n.children[names[0]]);
      SealForest(path, n, names[1..]);
    }
  }

  lemma {:induction false} SealTwice(n: Node)
    ensures Seal(Seal(n)) == Seal(n)
  {
    if n.File? {
      SealedBits(n.mode);
    } else if n.Directory? {
      forall c | c in n.children
        ensures Seal(Seal(n.children[c])) == Seal(n.children[c])
      {
        SealTwice(n.children[c]);
      }
    }
  }

  // ---- a capture determines the trees ----

  predicate Under(q: string, path: string) {
    path == q || IsAncestor(q, path)
  }

  lemma ChildUnder(path: string, c: string, x: string)
    requires path != "" && Under(ChildPath(path, c), x)
    ensures IsAncestor(path, x)
  {
    assert ChildPath(path, c) == path + "/" + c;
    assert x[..|path| + 1] == ChildPath(path, c)[..|path| + 1];
  }

  lemma {:induction false} EntriesUnder(path: string, n: Node)
    requires path != "" && WellNamed(n)
    ensures forall e :: e in Entries(path, n) ==> Under(path, e.path)
    decreases n, 1, 0
  {
    if n.Directory? {
      var names := Names(n.children.Keys);
      ForestUnder(path, n, names);
      forall e | e in Forest(path, n, names)
        ensures Under(path, e.path)
      {
        var c := Home(path, names, e);
        ChildUnder(path, c, e.path);
      }
    }
  }

  ghost predicate At(path: string, names: seq<string>, e: Entry) {
    exists c :: c in names && Under(ChildPath(path, c), e.path)
  }

  ghost function Home(path: string, names: seq<string>, e: Entry): (c: string)
    requires At(path, names, e)
    ensures c in names && Under(ChildPath(path, c), e.path)
  {
    var c :| c in names && Under(ChildPath(path, c), e.path); c
  }

  lemma {:induction false} ForestUnder(path: string, n: Node, names: seq<string>)
    requires n.Directory? && WellNamed(n) && (forall c :: c in names ==> c in n.children)
    ensures forall e :: e in Forest(path, n, names) ==> At(path, names, e)
    decreases n, 0, |names|
  {
    hide Under;
    if names != [] {
      var q := ChildPath(path, names[0]);
      EntriesUnder(q, n.children[names[0]]);
      ForestUnder(path, n, names[1..]);
      forall e | e in Forest(path, n, names)
        ensures At(path, names, e)
      {
        if e in Entries(q, n.children[names[0]]) {
          assert names[0] in names && Under(ChildPath(path, names[0]), e.path);
        } else {
          var c := Home(path, names[1..], e);
          assert c in names;
        }
      }
    }
  }

  /** Nothing lies under two children of one directory. */
  lemma Siblings(path: string, c: string, d: string, x: string)
    requires NameOk(c) && NameOk(d) && Under(ChildPath(path, c), x) && Under(ChildPath(path, d), x) && |c| <= |d|
    ensures c == d
  {
    var start := if path == "" then 0 else |path| + 1;
    var p, q := ChildPath(path, c), ChildPath(path, d);
    assert p[start..] == c && q[start..] == d;
    assert x[..|p|] == p && x[..|q|] == q;
    assert forall i :: 0 <= i < |c| ==> c[i] == x[start + i] && d[i] == x[start + i];
  }

  lemma Longer(a1: seq<Entry>, r1: seq<Entry>, a2: seq<Entry>, r2: seq<Entry>)
    requires a1 + r1 == a2 + r2 && |a1| < |a2|
    ensures r1 != [] && r1[0] in r1 && r1[0] in a2
  {
    assert |a1 + r1| == |a2 + r2|;
    assert (a1 + r1)[|a1|] == (a2 + r2)[|a1|];
    assert a2[|a1|] == r1[0];
  }

  lemma SegmentsMatch(a1: seq<Entry>, r1: seq<Entry>, a2: seq<Entry>, r2: seq<Entry>, q: string)
    requires a1 + r1 == a2 + r2 && |a1| <= |a2|
    requires (forall e :: e in a2 ==> Under(q, e.path)) && (forall e :: e in r1 ==> !Under(q, e.path))
    ensures a1 == a2 && r1 == r2
  {
    hide Under;
    if |a1| < |a2| {
      Longer(a1, r1, a2, r2);
    }
    assert a1 == (a1 + r1)[..|a1|] && a2 == (a2 + r2)[..|a2|];
    assert r1 == (a1 + r1)[|a1|..] && r2 == (a2 + r2)[|a2|..];
  }

  ghost predicate ChildrenOf(n: Node, path: string, names: seq<string>) {
    && n.Directory? && WellNamed(n)
    && (forall c :: c in names ==> c in n.children && Acceptable(ChildPath(path, c), n.children[c]))
    && (forall i, j :: 0 <= i < j < |names| ==> names[i] != names[j])
  }

  lemma RestElsewhere(path: string, n: Node, names: seq<string>)
    requires ChildrenOf(n, path, names) && names != []
    ensures ChildrenOf(n, path, names[1..])
    ensures forall e :: e in Forest(path, n, names[1..]) ==> !Under(ChildPath(path, names[0]), e.path)
    ensures forall e :: e in Entries(ChildPath(path, names[0]), n.children[names[0]]) ==>
              Under(ChildPath(path, names[0]), e.path)
  {
    hide Under, Acceptable;
    EntriesUnder(ChildPath(path, names[0]), n.children[names[0]]);
    ForestUnder(path, n, names[1..]);
    forall e | e in Forest(path, n, names[1..])
      ensures !Under(ChildPath(path, names[0]), e.path)
    {
      var c := Home(path, names[1..], e);
      assert NameOk(c) && NameOk(names[0]) && c != names[0];
      if Under(ChildPath(path, names[0]), e.path) {
        if |c| <= |names[0]| {
          Siblings(path, c, names[0], e.path);
        } else {
          Siblings(path, names[0], c, e.path);
        }
      }
    }
  }

  lemma FirstEntry(path: string, n: Node)
    requires Acceptable(path, n)
    ensures Entries(path, n) != [] && Entries(path, n)[0].path == path
    ensures Entries(path, n)[0].hash.None? <==> n.Directory?
  {
  }

  lemma SameChild(path: string, c: string, d: string)
    requires ChildPath(path, c) == ChildPath(path, d)
    ensures c == d
  {
    var start := if path == "" then 0 else |path| + 1;
    assert ChildPath(path, c)[start..] == c && ChildPath(path, d)[start..] == d;
  }

  /** Equal captures of two directories' children: the same names, and the first children match. */
  lemma ForestHeads(path: string, n1: Node, names1: seq<string>, n2: Node, names2: seq<string>)
    requires ChildrenOf(n1, path, names1) && ChildrenOf(n2, path, names2) && names1 != []
    requires Forest(path, n1, names1) == Forest(path, n2, names2)
    ensures names2 != [] && names1[0] == names2[0]
    ensures Entries(ChildPath(path, names1[0]), n1.children[names1[0]]) ==
            Entries(ChildPath(path, names1[0]), n2.children[names1[0]])
    ensures Forest(path, n1, names1[1..]) == Forest(path, n2, names2[1..])
  {
    hide Under, Entries, Acceptable, WellNamed;
    var q := ChildPath(path, names1[0]);
    var a1, r1 := Entries(q, n1.children[names1[0]]), Forest(path, n1, names1[1..]);
    FirstEntry(q, n1.children[names1[0]]);
    assert Forest(path, n1, names1)[0].path == q;
    assert names2 != [];
    var a2, r2 := Entries(ChildPath(path, names2[0]), n2.children[names2[0]]), Forest(path, n2, names2[1..]);
    FirstEntry(ChildPath(path, names2[0]), n2.children[names2[0]]);
    assert Forest(path, n2, names2)[0].path == ChildPath(path, names2[0]);
    SameChild(path, names1[0], names2[0]);
    RestElsewhere(path, n1, names1);
    RestElsewhere(path, n2, names2);
    if |a1| <= |a2| {
      SegmentsMatch(a1, r1, a2, r2, q);
    } else {
      SegmentsMatch(a2, r2, a1, r1, q);
    }
  }

  lemma {:induction false} ForestInjective(path: string, n1: Node, names1: seq<string>, n2: Node, names2: seq<string>)
    requires ChildrenOf(n1, path, names1) && ChildrenOf(n2, path, names2)
    requires Forest(path, n1, names1) == Forest(path, n2, names2)
    ensures names1 == names2 && forall c :: c in names1 ==> Seal(n1.children[c]) == Seal(n2.children[c])
    decreases n1, 0, |names1|
  {
    hide Entries, Acceptable, Under;
    if names1 == [] {
      if names2 != [] {
        ForestHeads(path, n2, names2, n1, names1);
      }
    } else {
      ForestHeads(path, n1, names1, n2, names2);
      RestElsewhere(path, n1, names1);
      RestElsewhere(path, n2, names2);
      var c := names1[0];
      ChildNonempty(path, c);
      EntriesInjective(ChildPath(path, c), n1.children[c], n2.children[c]);
      ForestInjective(path, n1, names1[1..], n2, names2[1..]);
      assert names1 == [c] + names1[1..] && names2 == [c] + names2[1..];
    }
  }

  lemma ChildNonempty(path: string, c: string)
    requires c != ""
    ensures ChildPath(path, c) != ""
  {
  }

  /** What a capture records determines the tree up to sealing: names, bytes, executability. */
  lemma {:induction false} EntriesInjective(path: string, n1: Node, n2: Node)
    requires path != "" && Acceptable(path, n1) && Acceptable(path, n2) && WellNamed(n1) && WellNamed(n2)
    requires Entries(path, n1) == Entries(path, n2)
    ensures Seal(n1) == Seal(n2)
    decreases n1, 1, 0
  {
    hide Entries, Seal, Names, PathOk;
    FirstEntry(path, n1);
    FirstEntry(path, n2);
    if n1.Directory? {
      DirectoryForest(path, n1, n2);
      ForestInjective(path, n1, Names(n1.children.Keys), n2, Names(n2.children.Keys));
      SealChildren(n1, n2);
    } else {
      SealFiles(path, n1, n2);
    }
  }

  lemma SealFiles(path: string, n1: Node, n2: Node)
    requires n1.File? && n2.File? && n1.links == n2.links && Entries(path, n1) == Entries(path, n2)
    ensures Seal(n1) == Seal(n2)
  {
    var e := Entries(path, n1)[0];
    assert e == Entries(path, n2)[0];
  }

  lemma SealChildren(n1: Node, n2: Node)
    requires n1.Directory? && n2.Directory? && Names(n1.children.Keys) == Names(n2.children.Keys)
    requires forall c :: c in Names(n1.children.Keys) ==>
               c in n1.children && c in n2.children && Seal(n1.children[c]) == Seal(n2.children[c])
    ensures Seal(n1) == Seal(n2)
  {
    hide Sorted, Less;
    var names := Names(n1.children.Keys);
    assert Lists(names, n1.children.Keys) && Lists(names, n2.children.Keys);
    assert n1.children.Keys == n2.children.Keys;
    var a, b := Seal(n1).children, Seal(n2).children;
    assert a.Keys == b.Keys;
    forall c | c in a
      ensures a[c] == b[c]
    {
      assert c in names;
    }
    assert a == b;
  }

  lemma DirectoryForest(path: string, n1: Node, n2: Node)
    requires n1.Directory? && n2.Directory? && Acceptable(path, n1) && Acceptable(path, n2) && WellNamed(n1)
             && WellNamed(n2)
    requires Entries(path, n1) == Entries(path, n2)
    ensures ChildrenOf(n1, path, Names(n1.children.Keys)) && ChildrenOf(n2, path, Names(n2.children.Keys))
    ensures Forest(path, n1, Names(n1.children.Keys)) == Forest(path, n2, Names(n2.children.Keys))
  {
    hide Less;
    NamesDistinct(n1.children.Keys);
    NamesDistinct(n2.children.Keys);
    assert Forest(path, n1, Names(n1.children.Keys)) == Entries(path, n1)[1..];
    assert Forest(path, n2, Names(n2.children.Keys)) == Entries(path, n2)[1..];
  }

  lemma NamesDistinct(all: set<string>)
    ensures forall i, j :: 0 <= i < j < |Names(all)| ==> Names(all)[i] != Names(all)[j]
  {
    var names := Names(all);
    forall i, j | 0 <= i < j < |names|
      ensures names[i] != names[j]
    {
      LessTotal(names[i], names[j]);
    }
  }
}
