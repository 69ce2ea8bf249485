/** Course configuration formats and execution limits. */
module Config {
  import opened Text

  datatype Resources = Resources(cpu: nat, memoryGib: nat, storageGib: nat)
  {
    predicate Fits(caps: Resources) {
      cpu <= caps.cpu && memoryGib <= caps.memoryGib && storageGib <= caps.storageGib
    }

    predicate Valid() {
      1 <= cpu <= 64 && 1 <= memoryGib <= 256 && 1 <= storageGib <= 512
    }
  }

  predicate Identifier(s: string) {
    0 < |s| <= 80 && forall i :: 0 <= i < |s| ==> IsAlphanumeric(s[i]) || s[i] in {'-', '_'}
  }

  predicate Command(arguments: seq<string>) {
    && 0 < |arguments| <= 256 && StartsWith(arguments[0], "/")
    && forall a :: a in arguments ==> ByteLength(a) <= 65536 && '\0' !in a
  }

  predicate GithubRepository(s: string) {
    var parts := Split(s, '/');
    && |parts| == 2 && Identifier(parts[0])
    && 0 < |parts[1]| <= 100 && parts[1] != "." && parts[1] != ".."
    && forall i :: 0 <= i < |parts[1]| ==> IsAlphanumeric(parts[1][i]) || parts[1][i] in {'-', '_', '.'}
  }

  const DIGEST_MARK := "@sha256:"

  /** `name@sha256:hash` for the hash after the only mark; a name cannot contain `@`. */
  predicate Image(s: string) {
    && |s| > 64 + |DIGEST_MARK|
    && (var n := |s| - 64 - |DIGEST_MARK|;
        var name := s[..n];
        && s[n..n + |DIGEST_MARK|] == DIGEST_MARK && ValidHex(s[n + |DIGEST_MARK|..], 64)
        && |name| < 240
        && (forall i :: 0 <= i < |name| ==> IsAlphanumeric(name[i]) || name[i] in {'.', '/', ':', '_', '-'})
        && (forall part :: part in Split(name, '/') ==> part != "" && part != "." && part != ".."))
  }
}
