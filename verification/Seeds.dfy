/** Instructor-owned cache seeds: what a seed may export and where it may be mounted. */
module Seeds {
  import opened Text
  import opened Config
  import opened Integrity

  datatype CopyMode = ReadOnly | PrivateCopy

  datatype Artifact = Artifact(name: string, path: string, mountPath: string, mode: CopyMode, maxSizeGib: nat)

  datatype Caching = Caching(
    version: nat,
    recipeDir: string,
    command: seq<string>,
    timeoutSeconds: nat,
    resources: Resources,
    architecture: string,
    artifacts: seq<Artifact>)

  datatype Seed = Seed(config: Caching, inputKey: string, digest: string, namespace: string, sourcePvc: string)

  const MOUNT_ROOT := "/cache/"

  predicate MountValid(path: string) {
    && StartsWith(path, MOUNT_ROOT) && 0 < |path| - |MOUNT_ROOT| <= 64
    && forall i :: |MOUNT_ROOT| <= i < |path| ==> IsAlphanumeric(path[i]) || path[i] in {'_', '-'}
  }

  predicate ArtifactValid(a: Artifact) {
    && 0 < |a.name| <= 40
    && (forall i :: 0 <= i < |a.name| ==> IsLower(a.name[i]) || IsDigit(a.name[i]) || a.name[i] == '-')
    && SafePath(a.path) && MountValid(a.mountPath) && 1 <= a.maxSizeGib <= 512
  }

  function TotalGib(artifacts: seq<Artifact>): nat {
    if artifacts == [] then 0 else artifacts[0].maxSizeGib + TotalGib(artifacts[1..])
  }

  /** Neither output contains the other. */
  predicate Disjoint(a: string, b: string) {
    a != b && !IsAncestor(a, b) && !IsAncestor(b, a)
  }

  /** Two exports share neither name, mount nor any part of their output trees. */
  predicate Apart(a: Artifact, b: Artifact) {
    a.name != b.name && a.mountPath != b.mountPath && Disjoint(a.path, b.path)
  }

  predicate LimitsValid(c: Caching) {
    && c.version > 0 && SafePath(c.recipeDir) && Command(c.command) && 1 <= c.timeoutSeconds <= 86400
    && c.resources.Valid()
    && c.architecture in {"amd64", "arm64"} && 0 < |c.artifacts| <= 16
  }

  predicate CachingValid(c: Caching) {
    && LimitsValid(c)
    && (forall i :: 0 <= i < |c.artifacts| ==> ArtifactValid(c.artifacts[i]))
    && (forall i, j :: 0 <= i < j < |c.artifacts| ==> Apart(c.artifacts[i], c.artifacts[j]))
    && TotalGib(c.artifacts) <= c.resources.storageGib
  }

  predicate SeedValid(s: Seed) {
    && CachingValid(s.config) && ValidHex(s.inputKey, 64) && ValidHex(s.digest, 64)
    && Identifier(s.namespace) && Identifier(s.sourcePvc)
  }

  /** One round of the inner loop: the artifact against every other one, in one direction only. */
  method Overlaps(artifacts: seq<Artifact>, i: nat) returns (found: bool)
    requires i < |artifacts|
    ensures found <==> exists j :: 0 <= j < |artifacts| && j != i
                                   && (artifacts[i].path == artifacts[j].path
                                       || IsAncestor(artifacts[j].path, artifacts[i].path))
  {
    for j := 0 to |artifacts|
      invariant forall k :: 0 <= k < j && k != i ==>
                  artifacts[i].path != artifacts[k].path && !IsAncestor(artifacts[k].path, artifacts[i].path)
    {
      if j != i && (artifacts[i].path == artifacts[j].path || IsAncestor(artifacts[j].path, artifacts[i].path)) {
        return true;
      }
    }
    return false;
  }

  /** What the loop has to find out about artifact `i`. */
  ghost predicate Admissible(all: seq<Artifact>, i: nat)
    requires i < |all|
  {
    && ArtifactValid(all[i])
    && (forall k :: 0 <= k < i ==> all[k].name != all[i].name && all[k].mountPath != all[i].mountPath)
    && (forall j :: 0 <= j < |all| && j != i ==> all[i].path != all[j].path && !IsAncestor(all[j].path, all[i].path))
  }

  lemma AdmissibleApart(all: seq<Artifact>)
    ensures (forall i :: 0 <= i < |all| ==> Admissible(all, i)) <==>
            (forall i :: 0 <= i < |all| ==> ArtifactValid(all[i]))
            && (forall i, j :: 0 <= i < j < |all| ==> Apart(all[i], all[j]))
  {
    hide ArtifactValid;
    if forall i :: 0 <= i < |all| ==> Admissible(all, i) {
      forall i, j | 0 <= i < j < |all|
        ensures Apart(all[i], all[j])
      {
        assert Admissible(all, i) && Admissible(all, j);
      }
      forall i | 0 <= i < |all|
        ensures ArtifactValid(all[i])
      {
        assert Admissible(all, i);
      }
    }
  }

  method Admit(all: seq<Artifact>, i: nat, names: set<string>, mounts: set<string>) returns (ok: bool)
    requires i < |all|
    requires names == (set k | 0 <= k < i :: all[k].name) && mounts == (set k | 0 <= k < i :: all[k].mountPath)
    ensures ok <==> Admissible(all, i)
  {
    hide ArtifactValid;
    if !ArtifactValid(all[i]) || all[i].name in names || all[i].mountPath in mounts {
      return false;
    }
    var overlapping := Overlaps(all, i);
    return !overlapping;
  }

  /** The check accepts exactly the configurations whose outputs are pairwise apart and fit. */
  method Validate(c: Caching) returns (ok: bool)
    ensures ok <==> CachingValid(c)
  {
    hide LimitsValid, Admissible, ArtifactValid, Apart;
    AdmissibleApart(c.artifacts);
    if !LimitsValid(c) {
      return false;
    }
    var names: set<string>, mounts: set<string> := {}, {};
    for i := 0 to |c.artifacts|
      invariant names == (set k | 0 <= k < i :: c.artifacts[k].name)
                && mounts == (set k | 0 <= k < i :: c.artifacts[k].mountPath)
      invariant forall k :: 0 <= k < i ==> Admissible(c.artifacts, k)
    {
      var admitted := Admit(c.artifacts, i, names, mounts);
      if !admitted {
        return false;
      }
      names, mounts := names + {c.artifacts[i].name}, mounts + {c.artifacts[i].mountPath};
    }
    return TotalGib(c.artifacts) <= c.resources.storageGib;
  }
}
