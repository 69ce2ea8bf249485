/** Source fetching: the hourly API budget, the blob cache and the snapshot it helps to build. */
module Sources {
  import opened Wrappers
  import opened Sets
  import opened Text
  import opened Config
  import opened Integrity
  import Encoding

  type Id = nat

  // ---- the budget ----

  const SECOND := 1_000_000_000
  const PERIOD := 3600 * SECOND
  const MAX_TOTAL := 3600
  const MAX_EACH := 600
  const MAX_STUDENTS := 1024

  ghost function Sum(m: map<Id, nat>): nat
    decreases |m|
  {
    if m == map[] then 0
    else
      var k :| k in m;
      m[k] + Sum(m - {k})
  }

  lemma EmptySum()
    ensures Sum(map[]) == 0
  {
  }

  lemma {:induction false} SumWithout(m: map<Id, nat>, k: Id)
    requires k in m
    ensures Sum(m) == m[k] + Sum(m - {k})
    decreases |m|
  {
    var j :| j in m && Sum(m) == m[j] + Sum(m - {j});
    if j != k {
      SumWithout(m - {j}, k);
      SumWithout(m - {k}, j);
      assert m - {j} - {k} == m - {k} - {j};
    }
  }

  lemma SumUpdate(m: map<Id, nat>, k: Id, v: nat)
    ensures Sum(m[k := v]) == Sum(m - {k}) + v
    ensures Sum(m) == Sum(m - {k}) + if k in m then m[k] else 0
  {
    SumWithout(m[k := v], k);
    assert m[k := v] - {k} == m - {k};
    if k in m {
      SumWithout(m, k);
    } else {
      assert m - {k} == m;
    }
  }

  /** What has been spent in the window that began at `started`; times are in nanoseconds. */
  datatype Ledger = Ledger(started: int, total: nat, students: map<Id, nat>) {
    function Count(who: Id): nat {
      if who in students then students[who] else 0
    }

    predicate Exhausted(who: Id) {
      total >= MAX_TOTAL || Count(who) >= MAX_EACH || (who !in students && |students| >= MAX_STUDENTS)
    }

    predicate Refuses(who: Id, now: int) {
      now < started + PERIOD && Exhausted(who)
    }

    function Spend(who: Id, now: int): Ledger {
      if now >= started + PERIOD then Ledger(now, 1, map[who := 1])
      else Ledger(started, total + 1, students[who := Count(who) + 1])
    }
  }

  /** The ledger after one request at each of the times; requests of no student cost nothing. */
  ghost function Spent(l: Ledger, student: Option<Id>, due: seq<int>): Ledger {
    if due == [] || student.None? then l
    else Spent(l, student, due[..|due| - 1]).Spend(student.value, due[|due| - 1])
  }

  /** None of the requests is refused. */
  ghost predicate Payable(l: Ledger, student: Option<Id>, due: seq<int>) {
    due != [] && student.Some? ==>
      var before := due[..|due| - 1];
      Payable(l, student, before) && !Spent(l, student, before).Refuses(student.value, due[|due| - 1])
  }

  lemma {:induction false} SpentConcat(l: Ledger, student: Option<Id>, a: seq<int>, b: seq<int>)
    ensures Spent(l, student, a + b) == Spent(Spent(l, student, a), student, b)
    ensures Payable(l, student, a + b) <==> Payable(l, student, a) && Payable(Spent(l, student, a), student, b)
  {
    if b == [] {
      assert a + b == a;
    } else {
      var front := b[..|b| - 1];
      assert (a + b)[..|a + b| - 1] == a + front;
      SpentConcat(l, student, a, front);
    }
  }

  lemma SpentOne(l: Ledger, who: Id, now: int)
    ensures Spent(l, Some(who), [now]) == l.Spend(who, now)
    ensures Payable(l, Some(who), [now]) <==> !l.Refuses(who, now)
  {
    var due := [now];
    assert due[..|due| - 1] == [];
  }

  /** Within one window the requests add up, and they are all granted exactly if the limits leave
      room for them. */
  lemma {:induction false} OneWindow(l: Ledger, who: Id, due: seq<int>)
    requires forall t :: t in due ==> t < l.started + PERIOD
    ensures var n := |due|;
            Spent(l, Some(who), due) ==
            if n == 0 then l else Ledger(l.started, l.total + n, l.students[who := l.Count(who) + n])
    ensures Payable(l, Some(who), due) <==>
            var n := |due|;
            n == 0 || (l.total + n <= MAX_TOTAL && l.Count(who) + n <= MAX_EACH
                       && (who in l.students || |l.students| < MAX_STUDENTS))
  {
    if due != [] {
      var front := due[..|due| - 1];
      assert due[|due| - 1] in due && forall t :: t in front ==> t in due;
      OneWindow(l, who, front);
      var before := Spent(l, Some(who), front);
      assert front != [] ==> before.students[who := before.Count(who) + 1] == l.students[who := l.Count(who) + |due|];
    }
  }

  class SourceBudget {
    var started: int
    var total: nat
    var students: map<Id, nat>

    /** What was spent in total is what the students spent, within every limit. */
    ghost predicate Valid()
      reads this
    {
      && total == Sum(students) && total <= MAX_TOTAL && |students| <= MAX_STUDENTS
      && forall s :: s in students ==> 1 <= students[s] <= MAX_EACH
    }

    constructor (now: int)
      ensures Valid() && started == now && total == 0 && students == map[]
    {
      started, total, students := now, 0, map[];
    }

    ghost function View(): Ledger
      reads this
    {
      Ledger(started, total, students)
    }

    /** Charges one request, in a new window if the old one is over; a refusal names a time strictly
        after the end of the window and changes nothing. */
    method Charge(student: Id, now: int) returns (retryAt: Option<int>)
      requires Valid() && started <= now
      modifies this
      ensures Valid() && started <= now
      ensures retryAt.Some? <==> old(View()).Refuses(student, now)
      ensures retryAt.Some? ==> View() == old(View())
      ensures retryAt.Some? ==> started + PERIOD < retryAt.value <= started + PERIOD + SECOND
      ensures retryAt.None? ==>
                var over := now >= old(started) + PERIOD;
                && started == (if over then now else old(started))
                && total == (if over then 0 else old(total)) + 1
                && students.Keys == (if over then {} else old(students.Keys)) + {student}
                && students[student] == (if !over && student in old(students) then old(students)[student] else 0) + 1
                && forall s :: s in students && s != student ==> s in old(students) && students[s] == old(students)[s]
    {
      hide Sum;
      EmptySum();
      if now - started >= PERIOD {
        started, total, students := now, 0, map[];
      }
      if total >= MAX_TOTAL || (if student in students then students[student] else 0) >= MAX_EACH
         || (student !in students && |students| >= MAX_STUDENTS)
      {
        var left := PERIOD - (now - started);
        return Some(now + (left / SECOND + 1) * SECOND);
      }
      var spent := if student in students then students[student] else 0;
      SumUpdate(students, student, spent + 1);
      total := total + 1;
      students := students[student := spent + 1];
      return None;
    }
  }

  // ---- trees ----

  datatype TreeEntry = TreeEntry(path: string, mode: string, sha: string, kind: string, size: Option<nat>)

  datatype Tree = Tree(entries: seq<TreeEntry>, truncated: bool)

  predicate IsSubmodule(e: TreeEntry) {
    e.kind == "commit" && e.mode == "160000"
  }

  predicate IsFile(e: TreeEntry) {
    e.kind == "blob" && e.mode in {"100644", "100755", "120000"}
  }

  predicate EntryOk(e: TreeEntry) {
    SafePath(e.path) && (e.kind == "tree" || IsSubmodule(e)
                         || (IsFile(e) && e.size.Some? && e.size.value <= MAX_FILE_BYTES))
  }

  function EntrySize(e: TreeEntry): nat {
    if e.kind == "tree" then 0 else if IsSubmodule(e) then 40 else if e.size.Some? then e.size.value else 0
  }

  function FileCount(entries: seq<TreeEntry>): nat {
    if entries == [] then 0
    else FileCount(entries[..|entries| - 1]) + if entries[|entries| - 1].kind == "tree" then 0 else 1
  }

  function ByteCount(entries: seq<TreeEntry>): nat {
    if entries == [] then 0 else ByteCount(entries[..|entries| - 1]) + EntrySize(entries[|entries| - 1])
  }

  lemma CountSnoc(entries: seq<TreeEntry>, i: nat)
    requires i < |entries|
    ensures FileCount(entries[..i + 1]) == FileCount(entries[..i]) + if entries[i].kind == "tree" then 0 else 1
    ensures ByteCount(entries[..i + 1]) == ByteCount(entries[..i]) + EntrySize(entries[i])
  {
    assert entries[..i + 1][..i] == entries[..i];
  }

  lemma {:induction false} CountGrows(entries: seq<TreeEntry>, i: nat)
    requires i <= |entries|
    ensures FileCount(entries[..i]) <= FileCount(entries) && ByteCount(entries[..i]) <= ByteCount(entries)
    decreases |entries| - i
  {
    if i < |entries| {
      CountSnoc(entries, i);
      CountGrows(entries, i + 1);
    } else {
      assert entries[..i] == entries;
    }
  }

  ghost predicate TreeOk(t: Tree, maxFiles: nat, maxBytes: nat) {
    && !t.truncated && |t.entries| <= maxFiles * 2
    && (forall e :: e in t.entries ==> EntryOk(e))
    && FileCount(t.entries) <= maxFiles && ByteCount(t.entries) <= maxBytes
  }

  /** The running checks accept exactly the trees within the limits. */
  method ValidateTree(t: Tree, maxFiles: nat, maxBytes: nat) returns (ok: bool)
    ensures ok <==> TreeOk(t, maxFiles, maxBytes)
  {
    hide EntryOk, FileCount, ByteCount;
    if t.truncated || |t.entries| > maxFiles * 2 {
      return false;
    }
    var files, bytes := 0, 0;
    Nothing();
    assert t.entries[..0] == [];
    for i := 0 to |t.entries|
      invariant files == FileCount(t.entries[..i]) <= maxFiles && bytes == ByteCount(t.entries[..i]) <= maxBytes
      invariant forall j :: 0 <= j < i ==> EntryOk(t.entries[j])
    {
      var e := t.entries[i];
      CountSnoc(t.entries, i);
      CountGrows(t.entries, i + 1);
      if !EntryOk(e) {
        return false;
      }
      if e.kind != "tree" {
        files := files + 1;
        bytes := bytes + EntrySize(e);
        if files > maxFiles || bytes > maxBytes {
          return false;
        }
      }
    }
    assert t.entries[..|t.entries|] == t.entries;
    return true;
  }

  lemma Nothing()
    ensures FileCount([]) == 0 && ByteCount([]) == 0
  {
  }

  // ---- the blob cache ----

  datatype BlobKey = BlobKey(repository: string, sha: string)

  type Cache = map<BlobKey, Blob>

  const MAX_CACHED := 512
  const MAX_CACHED_BYTES := 16 * 1024 * 1024

  ghost function TotalLength(c: Cache): nat
    decreases |c|
  {
    if c == map[] then 0
    else
      var k :| k in c;
      EncodedLength(c[k].data) + TotalLength(c - {k})
  }

  lemma {:induction false} LengthWithout(c: Cache, k: BlobKey)
    requires k in c
    ensures TotalLength(c) == EncodedLength(c[k].data) + TotalLength(c - {k})
    decreases |c|
  {
    var j :| j in c && TotalLength(c) == EncodedLength(c[j].data) + TotalLength(c - {j});
    if j != k {
      LengthWithout(c - {j}, k);
      LengthWithout(c - {k}, j);
      assert c - {j} - {k} == c - {k} - {j};
    }
  }

  ghost predicate Bounded(c: Cache) {
    |c| <= MAX_CACHED && TotalLength(c) <= MAX_CACHED_BYTES
  }

  ghost function Stored(c: Cache, k: BlobKey, b: Blob): Cache {
    if |c| >= MAX_CACHED || TotalLength(c) + EncodedLength(b.data) > MAX_CACHED_BYTES then map[k := b] else c[k := b]
  }

  lemma AloneBounded(k: BlobKey, b: Blob)
    requires Content(b).Some?
    ensures Bounded(map[k := b])
  {
    var c: Cache := map[k := b];
    LengthWithout(c, k);
    assert c - {k} == map[];
  }

  lemma AddedBounded(c: Cache, k: BlobKey, b: Blob)
    requires |c| < MAX_CACHED && TotalLength(c) + EncodedLength(b.data) <= MAX_CACHED_BYTES
    ensures Bounded(c[k := b])
  {
    hide EncodedLength, TotalLength;
    var c' := c[k := b];
    AddedSize(c, k, b);
    LengthWithout(c', k);
    assert c' - {k} == c - {k};
    if k in c {
      LengthWithout(c, k);
    } else {
      assert c - {k} == c;
    }
  }

  lemma AddedSize(c: Cache, k: BlobKey, b: Blob)
    ensures |c[k := b]| <= |c| + 1
  {
    assert c[k := b].Keys == c.Keys + {k};
    assert |c.Keys| == |c| && |c[k := b].Keys| == |c[k := b]|;
  }

  /** Whatever the cache held, storing a blob of legal size leaves it within its limits. */
  lemma StoredBounded(c: Cache, k: BlobKey, b: Blob)
    requires Content(b).Some?
    ensures Bounded(Stored(c, k, b))
  {
    hide Bounded, TotalLength, EncodedLength, Content;
    AloneBounded(k, b);
    if |c| < MAX_CACHED && TotalLength(c) + EncodedLength(b.data) <= MAX_CACHED_BYTES {
      AddedBounded(c, k, b);
    }
  }

  /** Storing adds the blob, and forgets others only if 512 entries or 16 MiB encoded are exceeded. */
  lemma KeptIfFits(c: Cache, k: BlobKey, b: Blob)
    ensures k in Stored(c, k, b) && Stored(c, k, b)[k] == b
    ensures |c| < 512 && TotalLength(c) + EncodedLength(b.data) <= 16 * 1024 * 1024 ==>
              forall j :: j in c && j != k ==> j in Stored(c, k, b) && Stored(c, k, b)[j] == c[j]
    ensures forall j :: j in Stored(c, k, b) && j != k ==> j in c && Stored(c, k, b)[j] == c[j]
  {
    hide TotalLength, EncodedLength;
  }

  /** Every cached blob of the repository is the object of that name. */
  ghost predicate Sound(c: Cache, repository: string, objects: map<string, Bytes>) {
    forall k :: k in c && k.repository == repository ==> k.sha in objects && c[k].data == Base64(objects[k.sha])
  }

  lemma StoredSound(c: Cache, repository: string, objects: map<string, Bytes>, sha: string, b: Blob)
    requires Sound(c, repository, objects) && sha in objects && b.data == Base64(objects[sha])
    ensures Sound(Stored(c, BlobKey(repository, sha), b), repository, objects)
  {
    hide TotalLength;
  }

  /** What every cache state satisfies: true contents within the limits. */
  ghost predicate Kept(c: Cache, repository: string, objects: map<string, Bytes>) {
    Sound(c, repository, objects) && Bounded(c)
  }

  // ---- fetching ----

  datatype Commit = Commit(sha: string, tree: string)

  /** What the service answers: an object has one content, whenever it can be had. */
  datatype Remote = Remote(commit: Option<Commit>, tree: Option<Tree>, objects: map<string, Bytes>,
                           reachable: set<string>)

  function AsciiBytes(s: string): Bytes {
    seq(|s|, i requires 0 <= i < |s| => (s[i] as int) % 256)
  }

  function DataOf(e: TreeEntry, objects: map<string, Bytes>): Encoded {
    if IsSubmodule(e) then Base64(AsciiBytes(e.sha))
    else if e.sha in objects then Base64(objects[e.sha]) else Undecodable(0)
  }

  /** The files of a tree; no cache is involved. */
  function FilesOf(entries: seq<TreeEntry>, objects: map<string, Bytes>): map<string, Blob> {
    if entries == [] then map[]
    else
      var e := entries[|entries| - 1];
      var before := FilesOf(entries[..|entries| - 1], objects);
      if e.kind == "tree" then before else before[e.path := Blob(e.mode, DataOf(e, objects))]
  }

  lemma FilesSnoc(entries: seq<TreeEntry>, objects: map<string, Bytes>, i: nat)
    requires i < |entries|
    ensures FilesOf(entries[..i + 1], objects) ==
            var before := FilesOf(entries[..i], objects);
            if entries[i].kind == "tree" then before
               else before[entries[i].path := Blob(entries[i].mode, DataOf(entries[i], objects))]
  {
    assert entries[..i + 1][..i] == entries[..i];
  }

  lemma {:induction false} FewFiles(entries: seq<TreeEntry>, objects: map<string, Bytes>)
    ensures |FilesOf(entries, objects)| <= FileCount(entries)
  {
    if entries != [] {
      var front := entries[..|entries| - 1];
      FewFiles(front, objects);
      var before := FilesOf(front, objects);
      var after := FilesOf(entries, objects);
      assert after.Keys <= before.Keys + {entries[|entries| - 1].path};
      KeysSize(before.Keys, entries[|entries| - 1].path, after.Keys);
    }
  }

  lemma KeysSize(before: set<string>, p: string, after: set<string>)
    requires after <= before + {p}
    ensures |after| <= |before| + 1
  {
    SubsetSize(after, before + {p});
    UnionSize(before, {p});
  }

  /** The lookup for entry `j` finds nothing: `seen[j]` is the cache at that moment. */
  predicate Missed(repository: string, entries: seq<TreeEntry>, seen: seq<Cache>, j: nat)
    requires j < |entries| == |seen|
  {
    IsFile(entries[j]) && BlobKey(repository, entries[j].sha) !in seen[j]
  }

  ghost function Misses(repository: string, entries: seq<TreeEntry>, seen: seq<Cache>, n: nat): set<nat>
    requires n <= |entries| == |seen|
  {
    set j: nat | j < n && Missed(repository, entries, seen, j)
  }

  /** When the first `n` entries need a request of their own. */
  ghost function MissTimes(repository: string, entries: seq<TreeEntry>, seen: seq<Cache>, times: seq<int>,
                           n: nat): seq<int>
    requires n <= |entries| == |seen| <= |times|
  {
    if n == 0 then []
    else
      MissTimes(repository, entries, seen, times, n - 1)
      + if Missed(repository, entries, seen, n - 1) then [times[n - 1]] else []
  }

  lemma {:induction false} MissPrefix(repository: string, entries: seq<TreeEntry>, seen: seq<Cache>, times: seq<int>,
                                      i: nat, n: nat)
    requires i <= n <= |entries| == |seen| <= |times|
    ensures MissTimes(repository, entries, seen, times, i) <= MissTimes(repository, entries, seen, times, n)
    decreases n
  {
    if i < n {
      MissPrefix(repository, entries, seen, times, i, n - 1);
    }
  }

  lemma {:induction false} MissesTimed(repository: string, entries: seq<TreeEntry>, seen: seq<Cache>, times: seq<int>,
                                       n: nat)
    requires n <= |entries| == |seen| <= |times|
    ensures forall t :: t in MissTimes(repository, entries, seen, times, n) ==> t in times
    ensures |MissTimes(repository, entries, seen, times, n)| == |Misses(repository, entries, seen, n)|
  {
    hide Missed;
    if n > 0 {
      MissesTimed(repository, entries, seen, times, n - 1);
      assert Misses(repository, entries, seen, n) ==
             Misses(repository, entries, seen, n - 1)
             + if Missed(repository, entries, seen, n - 1) then {n - 1} else {};
    }
  }

  /** The object can be had and the tree states its size truthfully. */
  predicate Truthful(e: TreeEntry, remote: Remote) {
    e.sha in remote.objects && e.sha in remote.reachable && e.size == Some(|remote.objects[e.sha]|)
  }

  /** What a fetch demands of the service and of the tree, apart from the single objects. */
  ghost predicate Answered(repository: string, sha: string, maxFiles: nat, maxBytes: nat, remote: Remote) {
    && ValidHex(sha, 40) && GithubRepository(repository)
    && remote.commit.Some? && remote.commit.value.sha == sha && remote.tree.Some?
    && TreeOk(remote.tree.value, maxFiles, maxBytes)
    && StructureValid(Snapshot(sha, FilesOf(remote.tree.value.entries, remote.objects)))
  }

  /** When an uncached fetch succeeds. */
  ghost predicate Fetchable(repository: string, sha: string, maxFiles: nat, maxBytes: nat, remote: Remote) {
    && Answered(repository, sha, maxFiles, maxBytes, remote)
    && forall e :: e in remote.tree.value.entries && IsFile(e) ==> Truthful(e, remote)
  }

  /** Every missing object can be had at its stated size; nothing is asked of the cached ones. */
  ghost predicate MissesTruthful(repository: string, entries: seq<TreeEntry>, remote: Remote, seen: seq<Cache>)
    requires |seen| == |entries|
  {
    forall j :: 0 <= j < |entries| && Missed(repository, entries, seen, j) ==> Truthful(entries[j], remote)
  }

  /** When a fetch through the cache succeeds, apart from its budget. */
  ghost predicate Retrievable(repository: string, sha: string, maxFiles: nat, maxBytes: nat, remote: Remote,
                              seen: seq<Cache>)
    requires remote.tree.Some? ==> |seen| == |remote.tree.value.entries|
  {
    Answered(repository, sha, maxFiles, maxBytes, remote)
    && MissesTruthful(repository, remote.tree.value.entries, remote, seen)
  }

  ghost predicate WithinLimits(entries: seq<TreeEntry>) {
    && (forall e :: e in entries ==> EntryOk(e))
    && FileCount(entries) <= MAX_FILES && ByteCount(entries) <= MAX_SNAPSHOT_BYTES
  }

  /** Caches as this and other fetches leave them. */
  ghost predicate Shared(caches: seq<Cache>, repository: string, objects: map<string, Bytes>) {
    forall i :: 0 <= i < |caches| ==> Kept(caches[i], repository, objects)
  }

  ghost predicate Clock(times: seq<int>) {
    forall i, j :: 0 <= i < j < |times| ==> times[i] <= times[j]
  }

  /** The requests of a complete fetch: commit, tree and every miss. */
  ghost function Due(repository: string, tree: Option<Tree>, seen: seq<Cache>, times: seq<int>): seq<int>
    requires tree.Some? ==> |seen| == |tree.value.entries|
    requires |times| >= 2 + if tree.Some? then |seen| else 0
  {
    times[..2] + if tree.Some? then MissTimes(repository, tree.value.entries, seen, times[2..], |seen|) else []
  }

  /** Of the requests due, the first `charges` were made and the ledger shows them. */
  ghost predicate Billed(l: Ledger, student: Option<Id>, due: seq<int>, charges: nat, after: Ledger) {
    charges <= |due| && after == Spent(l, student, due[..charges]) && (student.None? ==> charges == 0)
  }

  class Client {
    const budget: SourceBudget
    var blobs: Cache

    constructor (now: int)
      ensures fresh(budget) && budget.Valid() && budget.started == now && blobs == map[] && Bounded(blobs)
    {
      budget := new SourceBudget(now);
      blobs := map[];
    }

    method CachedLength() returns (length: nat)
      ensures length == TotalLength(blobs)
    {
      hide EncodedLength;
      length := 0;
      var todo := blobs;
      while todo != map[]
        invariant length + TotalLength(todo) == TotalLength(blobs)
        decreases |todo|
      {
        var j :| j in todo;
        LengthWithout(todo, j);
        length := length + EncodedLength(todo[j].data);
        todo := todo - {j};
      }
    }

    method Remember(k: BlobKey, b: Blob)
      requires Content(b).Some?
      modifies this`blobs
      ensures blobs == Stored(old(blobs), k, b) && Bounded(blobs)
    {
      hide Bounded, TotalLength, EncodedLength;
      var length := CachedLength();
      StoredBounded(blobs, k, b);
      if |blobs| >= MAX_CACHED || length + EncodedLength(b.data) > MAX_CACHED_BYTES {
        blobs := map[];
      }
      blobs := blobs[k := b];
    }

    /** One request on behalf of a student, or of nobody, which is free. */
    method ChargeSource(student: Option<Id>, now: int) returns (ok: bool)
      requires budget.Valid() && budget.started <= now
      modifies budget
      ensures budget.Valid() && budget.started <= now
      ensures ok <==> Payable(old(budget.View()), student, [now])
      ensures budget.View() == if ok then Spent(old(budget.View()), student, [now]) else old(budget.View())
    {
      if student.None? {
        return true;
      }
      ghost var before := budget.View();
      var refused := budget.Charge(student.value, now);
      SpentOne(before, student.value, now);
      assert refused.None? ==> budget.students == before.Spend(student.value, now).students;
      return refused.None?;
    }

    /** One blob, from the cache or from the service. Other fetches may have changed the cache
        before the lookup (`seen`) and again before the insertion (`later`). */
    method Obtain(repository: string, e: TreeEntry, remote: Remote, student: Option<Id>, now: int, seen: Cache,
                  later: Cache)
      returns (data: Option<Encoded>, charged: bool)
      requires budget.Valid() && budget.started <= now && EntryOk(e) && IsFile(e)
      requires Kept(seen, repository, remote.objects) && Kept(later, repository, remote.objects)
      modifies this`blobs, budget
      ensures budget.Valid() && budget.started <= now && Kept(blobs, repository, remote.objects)
      ensures var hit, payable := BlobKey(repository, e.sha) in seen, Payable(old(budget.View()), student, [now]);
              && (data.Some? <==> hit || (payable && Truthful(e, remote)))
              && (charged <==> !hit && student.Some? && payable)
      ensures budget.View() == if charged then Spent(old(budget.View()), student, [now]) else old(budget.View())
      ensures data.Some? ==> e.sha in remote.objects && data.value == Base64(remote.objects[e.sha])
    {
      hide Sound, Bounded, Stored, SafePath, Payable;
      blobs := seen;
      var k := BlobKey(repository, e.sha);
      if k in blobs {
        SoundEntry(blobs, k, remote.objects);
        return Some(blobs[k].data), false;
      }
      var paid := ChargeSource(student, now);
      charged := paid && student.Some?;
      if !paid || e.sha !in remote.reachable || e.sha !in remote.objects {
        return None, charged;
      }
      var bytes := remote.objects[e.sha];
      if |bytes| > MAX_FILE_BYTES || Some(|bytes|) != e.size {
        return None, charged;
      }
      var b := Blob(e.mode, Base64(bytes));
      LegalBlob(b);
      StoredSound(later, repository, remote.objects, e.sha, b);
      blobs := later;
      Remember(k, b);
      return Some(b.data), charged;
    }

    /** The file loop: whatever the cache holds along the way, the files are those of the tree, and
        every miss is charged, also the one that ends the loop. */
    method FetchFiles(repository: string, entries: seq<TreeEntry>, remote: Remote, student: Option<Id>, times: seq<int>,
                      seen: seq<Cache>, later: seq<Cache>)
      returns (r: Option<map<string, Blob>>, charges: nat)
      requires |seen| == |later| == |entries| && |times| == |entries| + 1 && Clock(times)
      requires Shared(seen, repository, remote.objects) && Shared(later, repository, remote.objects)
      requires budget.Valid() && budget.started <= times[0] && Kept(blobs, repository, remote.objects)
      modifies this`blobs, budget
      ensures budget.Valid() && budget.started <= times[|entries|] && Kept(blobs, repository, remote.objects)
      ensures r.Some? ==> r.value == FilesOf(entries, remote.objects)
      ensures var due := MissTimes(repository, entries, seen, times, |entries|);
              && Billed(old(budget.View()), student, due, charges, budget.View())
              && (r.Some? && student.Some? ==> charges == |due|)
              && var obtained := && MissesTruthful(repository, entries, remote, seen)
                                 && Payable(old(budget.View()), student, due);
              && (r.Some? ==> obtained)
              && (obtained && WithinLimits(entries) ==> r.Some?)
    {
      hide EntryOk, Truthful, FilesOf, FileCount, ByteCount, MissTimes, Kept, SafePath, Spent, Payable, Missed;
      hide IsFile, IsSubmodule, EntrySize, SourceBudget.Valid;
      ghost var l := budget.View();
      var files: map<string, Blob>, total := map[], 0;
      charges := 0;
      NoFiles(repository, entries, seen, times, remote.objects);
      NothingDue(l, student);
      for i := 0 to |entries|
        invariant files == FilesOf(entries[..i], remote.objects) && total <= ByteCount(entries[..i])
        invariant var paid := MissTimes(repository, entries, seen, times, i);
                  && budget.View() == Spent(l, student, paid) && Payable(l, student, paid)
                  && charges == if student.None? then 0 else |paid|
        invariant forall j :: 0 <= j < i && Missed(repository, entries, seen, j) ==> Truthful(entries[j], remote)
        invariant budget.Valid() && budget.started <= times[i] && Kept(blobs, repository, remote.objects)
      {
        var e := entries[i];
        FilesSnoc(entries, remote.objects, i);
        MissStep(repository, entries, seen, times, i, l, student);
        CountSnoc(entries, i);
        CountGrows(entries, i + 1);
        FewFiles(entries[..i], remote.objects);
        EntryKinds(e);
        if !SafePath(e.path) {
          return None, charges;
        }
        if e.kind == "tree" {
          continue;
        }
        if IsSubmodule(e) {
          files := files[e.path := Blob(e.mode, Base64(AsciiBytes(e.sha)))];
          continue;
        }
        if !IsFile(e) || e.size.None? || e.size.value > MAX_FILE_BYTES {
          return None, charges;
        }
        total := total + e.size.value;
        if total > MAX_SNAPSHOT_BYTES || |files| >= MAX_FILES {
          return None, charges;
        }
        var data, charged := Obtain(repository, e, remote, student, times[i], seen[i], later[i]);
        charges := if charged then charges + 1 else charges;
        if data.None? {
          return None, charges;
        }
        files := files[e.path := Blob(e.mode, data.value)];
      }
      assert entries[..|entries|] == entries;
      AllDue(l, student, MissTimes(repository, entries, seen, times, |entries|));
      return Some(files), charges;
    }

    /** A fetch through the cache builds what an uncached fetch builds. It succeeds exactly if the
        misses, and only they, are as the tree states them and the student can pay for them; what is
        charged are the requests made, whatever becomes of them. */
    method FetchSnapshot(repository: string, sha: string, maxFiles: nat, maxBytes: nat, student: Option<Id>,
                         remote: Remote, times: seq<int>, seen: seq<Cache>, later: seq<Cache>)
      returns (r: Option<Snapshot>, charges: nat)
      requires remote.tree.Some? ==> |seen| == |later| == |remote.tree.value.entries| && |times| == |seen| + 3
      requires remote.tree.None? ==> |times| == 3
      requires Shared(seen, repository, remote.objects) && Shared(later, repository, remote.objects) && Clock(times)
      requires budget.Valid() && budget.started <= times[0] && Kept(blobs, repository, remote.objects)
      modifies this`blobs, budget
      ensures budget.Valid() && Kept(blobs, repository, remote.objects)
      ensures r.Some? ==>
                remote.tree.Some? && r.value == Snapshot(sha, FilesOf(remote.tree.value.entries, remote.objects))
      ensures var due := Due(repository, remote.tree, seen, times);
              && Billed(old(budget.View()), student, due, charges, budget.View())
              && (r.Some? && student.Some? ==> charges == |due|)
              && var obtained := && Retrievable(repository, sha, maxFiles, maxBytes, remote, seen)
                                 && Payable(old(budget.View()), student, due);
              && (r.Some? ==> obtained)
              && (obtained && maxFiles <= MAX_FILES && maxBytes <= MAX_SNAPSHOT_BYTES ==> r.Some?)
    {
      hide EntryOk, Truthful, FilesOf, FileCount, ByteCount, MissTimes, Kept, SafePath, StructureValid;
      hide GithubRepository;
      hide Spent, Payable, Missed, SourceBudget.Valid, ValidHex, MissesTruthful;
      ghost var l := budget.View();
      r, charges := None, 0;
      TwoRequests(l, student, times, Due(repository, remote.tree, seen, times));
      if !ValidHex(sha, 40) || !GithubRepository(repository) {
        return;
      }
      var paid := ChargeSource(student, times[0]);
      if !paid {
        return;
      }
      charges := if student.Some? then 1 else 0;
      if remote.commit.None? || remote.commit.value.sha != sha {
        return;
      }
      paid := ChargeSource(student, times[1]);
      if !paid {
        return;
      }
      charges := if student.Some? then 2 else 0;
      if remote.tree.None? {
        return;
      }
      var sound := ValidateTree(remote.tree.value, maxFiles, maxBytes);
      if !sound {
        return;
      }
      ghost var misses := MissTimes(repository, remote.tree.value.entries, seen, times[2..], |seen|);
      var files, more := FetchFiles(repository, remote.tree.value.entries, remote, student, times[2..], seen, later);
      AllRequests(l, student, times[..2], misses, more, budget.View());
      charges := charges + more;
      if files.None? {
        return;
      }
      var ok := ValidateStructure(Snapshot(sha, files.value));
      if ok {
        r := Some(Snapshot(sha, files.value));
      }
    }
  }

  lemma NoFiles(repository: string, entries: seq<TreeEntry>, seen: seq<Cache>, times: seq<int>,
                objects: map<string, Bytes>)
    requires |seen| == |entries| <= |times|
    ensures entries[..0] == [] && FilesOf([], objects) == map[] && ByteCount([]) == 0
    ensures MissTimes(repository, entries, seen, times, 0) == []
  {
  }

  lemma EntryKinds(e: TreeEntry)
    ensures EntryOk(e) <==>
            SafePath(e.path) && (e.kind == "tree" || IsSubmodule(e)
                                 || (IsFile(e) && e.size.Some? && e.size.value <= MAX_FILE_BYTES))
    ensures IsFile(e) ==> !IsSubmodule(e) && e.kind != "tree"
    ensures IsFile(e) && e.size.Some? ==> EntrySize(e) == e.size.value
  {
    hide SafePath;
  }

  lemma MissStep(repository: string, entries: seq<TreeEntry>, seen: seq<Cache>, times: seq<int>, i: nat, l: Ledger,
                 student: Option<Id>)
    requires i < |entries| == |seen| <= |times|
    ensures var paid := MissTimes(repository, entries, seen, times, i);
            var next := MissTimes(repository, entries, seen, times, i + 1);
            var due, before := MissTimes(repository, entries, seen, times, |entries|), Spent(l, student, paid);
            && paid <= due && next <= due && due[..|paid|] == paid && due[..|next|] == next
            && (Payable(l, student, due) ==> Payable(l, student, next))
            && (if Missed(repository, entries, seen, i) then
                  && |next| == |paid| + 1 && Spent(l, student, next) == Spent(before, student, [times[i]])
                  && (Payable(l, student, next) <==> Payable(l, student, paid) && Payable(before, student, [times[i]]))
                else next == paid)
            && (student.None? ==> before == l == Spent(l, student, next) == Spent(l, student, due[..0]))
    ensures Missed(repository, entries, seen, i) <==>
            IsFile(entries[i]) && BlobKey(repository, entries[i].sha) !in seen[i]
  {
    hide Spent, Payable;
    var paid := MissTimes(repository, entries, seen, times, i);
    var next := MissTimes(repository, entries, seen, times, i + 1);
    var due := MissTimes(repository, entries, seen, times, |entries|);
    MissPrefix(repository, entries, seen, times, i, |entries|);
    MissPrefix(repository, entries, seen, times, i + 1, |entries|);
    PrefixDue(l, student, next, due);
    NextDue(l, student, paid, times[i]);
    FreeDue(l, student, paid);
    FreeDue(l, student, next);
    FreeDue(l, student, due[..0]);
  }

  lemma NothingDue(l: Ledger, student: Option<Id>)
    ensures Spent(l, student, []) == l && Payable(l, student, [])
  {
  }

  lemma NextDue(l: Ledger, student: Option<Id>, due: seq<int>, t: int)
    ensures Spent(l, student, due + [t]) == Spent(Spent(l, student, due), student, [t])
    ensures Payable(l, student, due + [t]) <==>
            Payable(l, student, due) && Payable(Spent(l, student, due), student, [t])
  {
    SpentConcat(l, student, due, [t]);
  }

  lemma PrefixDue(l: Ledger, student: Option<Id>, due: seq<int>, all: seq<int>)
    requires due <= all
    ensures Payable(l, student, all) ==> Payable(l, student, due)
  {
    assert all == due + all[|due|..];
    SpentConcat(l, student, due, all[|due|..]);
  }

  lemma FreeDue(l: Ledger, student: Option<Id>, due: seq<int>)
    ensures student.None? ==> Spent(l, student, due) == l && Payable(l, student, due)
  {
  }

  /** Either all requests were made or, for nobody, none was charged. */
  lemma AllDue(l: Ledger, student: Option<Id>, due: seq<int>)
    ensures Billed(l, student, due, 0, l)
    ensures Billed(l, student, due, if student.None? then 0 else |due|, Spent(l, student, due))
  {
    NothingDue(l, student);
    FreeDue(l, student, due);
    assert due[..|due|] == due && due[..0] == [];
  }

  /** The commit and the tree are the first two requests. */
  lemma TwoRequests(l: Ledger, student: Option<Id>, times: seq<int>, due: seq<int>)
    requires |times| >= 2 && times[..2] <= due
    ensures var one := Spent(l, student, [times[0]]);
            var two := Spent(one, student, [times[1]]);
            && Billed(l, student, due, 0, l) && two == Spent(l, student, times[..2])
            && Billed(l, student, due, if student.None? then 0 else 1, one)
            && Billed(l, student, due, if student.None? then 0 else 2, two)
            && (Payable(l, student, times[..2]) <==>
                Payable(l, student, [times[0]]) && Payable(one, student, [times[1]]))
            && (Payable(l, student, due) ==> Payable(l, student, times[..2]))
  {
    hide Payable;
    assert [times[0]] + [times[1]] == times[..2] && due[..2] == times[..2] && due[..1] == [times[0]] && due[..0] == [];
    NextDue(l, student, [times[0]], times[1]);
    PrefixDue(l, student, times[..2], due);
  }

  lemma AllRequests(l: Ledger, student: Option<Id>, first: seq<int>, misses: seq<int>, n: nat, after: Ledger)
    requires Billed(Spent(l, student, first), student, misses, n, after)
    ensures Billed(l, student, first + misses, if student.None? then 0 else |first| + n, after)
    ensures Payable(l, student, first + misses) <==>
            Payable(l, student, first) && Payable(Spent(l, student, first), student, misses)
  {
    SpentConcat(l, student, first, misses);
    SpentConcat(l, student, first, misses[..n]);
    assert (first + misses)[..|first| + n] == first + misses[..n];
  }

  lemma LegalBlob(b: Blob)
    requires b.data.Base64? && |b.data.bytes| <= MAX_FILE_BYTES
    ensures Content(b).Some?
  {
  }

  lemma SoundEntry(c: Cache, k: BlobKey, objects: map<string, Bytes>)
    requires Sound(c, k.repository, objects) && k in c
    ensures k.sha in objects && c[k].data == Base64(objects[k.sha])
  {
  }

  /** The bill of a fetch within one window: what it charged is what the budget and the student
      have spent more, a complete fetch costs two requests and its misses, and it can be paid
      exactly if the limits leave room for that. */
  lemma BillWithinWindow(l: Ledger, who: Id, repository: string, tree: Tree, seen: seq<Cache>, times: seq<int>,
                         charges: nat, after: Ledger)
    requires |seen| == |tree.entries| && |times| == |seen| + 3
    requires Clock(times) && times[|seen| + 2] < l.started + PERIOD
    requires Billed(l, Some(who), Due(repository, Some(tree), seen, times), charges, after)
    ensures after.started == l.started && after.total == l.total + charges && after.Count(who) == l.Count(who) + charges
    ensures forall other :: other != who ==> after.Count(other) == l.Count(other)
    ensures var due := Due(repository, Some(tree), seen, times);
            var n := 2 + |Misses(repository, tree.entries, seen, |seen|)|;
            && |due| == n
            && (Payable(l, Some(who), due) <==>
                && l.total + n <= MAX_TOTAL && l.Count(who) + n <= MAX_EACH
                && (who in l.students || |l.students| < MAX_STUDENTS))
  {
    hide Spent, Payable, MissTimes, Misses;
    var due := Due(repository, Some(tree), seen, times);
    MissesTimed(repository, tree.entries, seen, times[2..], |seen|);
    forall t | t in due
      ensures t < l.started + PERIOD
    {
      var i :| 0 <= i < |times| && times[i] == t;
    }
    OneWindow(l, who, due);
    assert forall t :: t in due[..charges] ==> t in due;
    OneWindow(l, who, due[..charges]);
  }

  /** A file entry found in the cache. */
  ghost predicate Hit(repository: string, entries: seq<TreeEntry>, seen: seq<Cache>, j: nat)
    requires j < |entries| == |seen|
  {
    IsFile(entries[j]) && !Missed(repository, entries, seen, j)
  }

  /** Caching never hinders a fetch, and it changes the answer exactly for trees that state a wrong
      size for a cached object, or name one that can no longer be had. */
  lemma CachedAgreesIff(repository: string, sha: string, maxFiles: nat, maxBytes: nat, remote: Remote, seen: seq<Cache>)
    requires remote.tree.Some? ==> |seen| == |remote.tree.value.entries|
    ensures Fetchable(repository, sha, maxFiles, maxBytes, remote) <==>
            && Retrievable(repository, sha, maxFiles, maxBytes, remote, seen)
            && forall j :: 0 <= j < |seen| && Hit(repository, remote.tree.value.entries, seen, j) ==>
                 Truthful(remote.tree.value.entries[j], remote)
  {
    hide TreeOk, StructureValid, GithubRepository, ValidHex, Truthful;
    if Answered(repository, sha, maxFiles, maxBytes, remote) {
      var entries := remote.tree.value.entries;
      assert forall j :: 0 <= j < |entries| ==> entries[j] in entries;
      forall e | e in entries && IsFile(e) && Retrievable(repository, sha, maxFiles, maxBytes, remote, seen)
        ensures (exists j :: 0 <= j < |seen| && Hit(repository, entries, seen, j) && entries[j] == e)
                || Truthful(e, remote)
      {
        var j :| 0 <= j < |entries| && entries[j] == e;
        assert Hit(repository, entries, seen, j) || Missed(repository, entries, seen, j);
      }
    }
  }

  // ---- what a cached blob hides ----

  const DIGITS := "0123456789012345678901234567890123456789"

  const EMPTY_FILE := TreeEntry("a", "100644", "b", "blob", Some(0))

  function ServiceWith(entry: TreeEntry): Remote {
    Remote(Some(Commit(DIGITS, "t")), Some(Tree([entry], false)), map["b" := []], {"b"})
  }

  lemma ShortNames()
    ensures SafePath("a") && GithubRepository("o/r") && ValidHex(DIGITS, 40)
  {
    Encoding.PlainPath("a");
    Encoding.OneSlash();
  }

  lemma EntryOf(size: nat)
    requires size <= 5
    ensures var t := Tree([EMPTY_FILE.(size := Some(size))], false);
            TreeOk(t, MAX_FILES, MAX_SNAPSHOT_BYTES)
              && FilesOf(t.entries, map["b" := []]) == map["a" := Blob("100644", Base64([]))]
  {
    hide SafePath;
    ShortNames();
    var entries := [EMPTY_FILE.(size := Some(size))];
    assert entries[..0] == [];
    assert forall e :: e in entries ==> EntryOk(e);
    Nothing();
    CountSnoc(entries, 0);
    assert entries[..1] == entries;
  }

  lemma OneFile()
    ensures StructureValid(Snapshot(DIGITS, map["a" := Blob("100644", Base64([]))]))
  {
    hide SafePath, ValidHex;
    ShortNames();
    var files := map["a" := Blob("100644", Base64([]))];
    TotalWithout(files, "a");
    assert files - {"a"} == map[];
  }

  lemma OneEntry(size: nat)
    requires size <= 5
    ensures Answered("o/r", DIGITS, MAX_FILES, MAX_SNAPSHOT_BYTES, ServiceWith(EMPTY_FILE.(size := Some(size))))
  {
    hide TreeOk, FilesOf, StructureValid, GithubRepository, ValidHex;
    ShortNames();
    EntryOf(size);
    OneFile();
  }

  lemma StoredKey(c: Cache, k: BlobKey, b: Blob)
    ensures k in Stored(c, k, b)
  {
  }

  /** The same empty object, first under its true size and then under a wrong one: through the cache
      the second tree is fetched too, without it the size is compared and the fetch refused. */
  lemma CachedSizeUnchecked() returns (cache: Cache)
    ensures var repository, honest, wrong := "o/r", ServiceWith(EMPTY_FILE), ServiceWith(EMPTY_FILE.(size := Some(5)));
            && Fetchable(repository, DIGITS, MAX_FILES, MAX_SNAPSHOT_BYTES, honest)
            && cache == Stored(map[], BlobKey(repository, "b"), Blob("100644", Base64([])))
            && Kept(cache, repository, wrong.objects)
            && Retrievable(repository, DIGITS, MAX_FILES, MAX_SNAPSHOT_BYTES, wrong, [cache])
            && !Fetchable(repository, DIGITS, MAX_FILES, MAX_SNAPSHOT_BYTES, wrong)
  {
    hide Answered, Stored, Bounded;
    var b := Blob("100644", Base64([]));
    var k := BlobKey("o/r", "b");
    cache := Stored(map[], k, b);
    StoredBounded(map[], k, b);
    StoredSound(map[], "o/r", map["b" := []], "b", b);
    OneEntry(0);
    OneEntry(5);
    StoredKey(map[], k, b);
    assert EMPTY_FILE.(size := Some(5)) in ServiceWith(EMPTY_FILE.(size := Some(5))).tree.value.entries;
  }
}
