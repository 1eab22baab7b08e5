/** Where an object lives and under which URL it is offered.

    On disk an object of repository `repo` with id `oid` is stored at
    `<root>/<repo>/objects/<oid[0:2]>/<oid[2:4]>/<oid>` (or the same
    without `<root>` in relative form); the two short directories bound
    the fan-out of each directory. The transfer URL is
    `<url root without trailing slashes>/upload_store/<repo>/<oid>`. */
module Layout {
  import opened PyStr
  import opened PurePath

  const ObjectsDir := "objects"
  const UploadStoreRoute := "/upload_store/"

  /** `base_dir(repo, relative)`: the repository's directory. */
  function BaseDir(lfsRoot: string, repo: string, relative: bool): (p: Path)
    ensures relative ==> p == Parse(repo)
    ensures !relative && !IsAbsolute(repo) ==>
              p == Path(Parse(lfsRoot).absolute, Parse(lfsRoot).parts + Components(repo))
    ensures !relative && IsAbsolute(repo) ==> p == Parse(repo)
  {
    if relative then Parse(repo) else Join(Parse(lfsRoot), repo)
  }

  /** `oid_path(repo, oid, relative)`, with pathlib's joining rules;
      `OidPathEndsInShards` and `OidPathLayout` state its shape. */
  function OidPath(lfsRoot: string, repo: string, oid: string, relative: bool): Path
  {
    JoinAll(BaseDir(lfsRoot, repo, relative), [ObjectsDir, Slice(oid, 0, 2), Slice(oid, 2, 4), oid])
  }

  /** `oid_url(repo, oid)` for a request whose URL root is `urlRoot`:
      the root without trailing slashes, the `/upload_store/` route, and
      the repository and id as the last two segments. */
  function OidUrl(urlRoot: string, repo: string, oid: string): (u: string)
    ensures StartsWith(u, RStrip(urlRoot, '/') + UploadStoreRoute)
    ensures |u| > |oid| && u[|u| - |oid| - 1..] == "/" + oid
  {
    RStrip(urlRoot, '/') + UploadStoreRoute + repo + "/" + oid
  }

  /** An object id with at least four characters and no `/`; the SHA-256
      hex ids that clients send are of this kind. */
  predicate WellFormedOid(oid: string) {
    |oid| >= 4 && '/' !in oid
  }

  /** Whatever the repository name, a well-formed id ends the object's
      path in `objects/<oid[0:2]>/<oid[2:4]>/<oid>`. */
  lemma OidPathEndsInShards(lfsRoot: string, repo: string, oid: string, relative: bool)
    requires WellFormedOid(oid)
    ensures var p := OidPath(lfsRoot, repo, oid, relative);
            |p.parts| >= 4 && p.parts[|p.parts| - 4..] == [ObjectsDir, oid[..2], oid[2..4], oid]
  {
    ShardIsPart(oid, 0, 2);
    ShardIsPart(oid, 2, 4);
    ShardIsPart(oid, 0, |oid|);
    assert oid[0..|oid|] == oid;
    JoinAllComponents(BaseDir(lfsRoot, repo, relative), [ObjectsDir, oid[..2], oid[2..4], oid]);
  }

  /** For a relative repository name and a well-formed id, the object's
      path is the repository's directory, then `objects`, the first two
      characters of the id, the next two, and the whole id. */
  lemma OidPathLayout(lfsRoot: string, repo: string, oid: string, relative: bool)
    requires !IsAbsolute(repo) && WellFormedOid(oid)
    ensures OidPath(lfsRoot, repo, oid, relative) ==
              Path(!relative && Parse(lfsRoot).absolute,
                   (if relative then [] else Parse(lfsRoot).parts) + Components(repo)
                   + [ObjectsDir, oid[..2], oid[2..4], oid])
  {
    var base := BaseDir(lfsRoot, repo, relative);
    var pre := (if relative then [] else Parse(lfsRoot).parts) + Components(repo);
    assert base == Path(!relative && Parse(lfsRoot).absolute, pre);
    ShardIsPart(oid, 0, 2);
    ShardIsPart(oid, 2, 4);
    ShardIsPart(oid, 0, |oid|);
    assert oid[0..|oid|] == oid;
    JoinAllComponents(base, [ObjectsDir, oid[..2], oid[2..4], oid]);
  }

  /** A non-empty piece of a well-formed id is a single path component. */
  lemma ShardIsPart(oid: string, lo: nat, hi: nat)
    requires WellFormedOid(oid) && lo + 2 <= hi <= |oid|
    ensures IsPart(oid[lo..hi])
  {
  }

  /** Content addressing: two well-formed requests that reach the same
      file name the same repository directory and the same id. */
  lemma OidPathInjective(lfsRoot: string, repo1: string, oid1: string,
                         repo2: string, oid2: string, relative: bool)
    requires !IsAbsolute(repo1) && WellFormedOid(oid1)
    requires !IsAbsolute(repo2) && WellFormedOid(oid2)
    requires OidPath(lfsRoot, repo1, oid1, relative) == OidPath(lfsRoot, repo2, oid2, relative)
    ensures Components(repo1) == Components(repo2) && oid1 == oid2
  {
    OidPathLayout(lfsRoot, repo1, oid1, relative);
    OidPathLayout(lfsRoot, repo2, oid2, relative);
    var pre := if relative then [] else Parse(lfsRoot).parts;
    var s1 := pre + Components(repo1) + [ObjectsDir, oid1[..2], oid1[2..4], oid1];
    var s2 := pre + Components(repo2) + [ObjectsDir, oid2[..2], oid2[2..4], oid2];
    assert s1 == s2;
    assert |Components(repo1)| == |Components(repo2)|;
    assert oid1 == s1[|s1| - 1] == s2[|s2| - 1] == oid2;
    assert Components(repo1) == s1[|pre|..|s1| - 4] == s2[|pre|..|s2| - 4] == Components(repo2);
  }

  /** The relative form is the absolute form with the root's components
      taken off the front. */
  lemma RelativeOidPathIsSuffix(lfsRoot: string, repo: string, oid: string)
    requires !IsAbsolute(repo) && WellFormedOid(oid)
    ensures OidPath(lfsRoot, repo, oid, false).parts ==
              Parse(lfsRoot).parts + OidPath(lfsRoot, repo, oid, true).parts
  {
    OidPathLayout(lfsRoot, repo, oid, false);
    OidPathLayout(lfsRoot, repo, oid, true);
  }

  /** No check guards the id: an id that starts with `/` replaces the
      whole path, so the file consulted lies outside the storage root. */
  lemma AbsoluteOidEscapesRoot(lfsRoot: string, repo: string, oid: string, relative: bool)
    requires IsAbsolute(oid)
    ensures OidPath(lfsRoot, repo, oid, relative) == Parse(oid)
  {
    JoinAllEndsAbsolute(BaseDir(lfsRoot, repo, relative), [ObjectsDir, Slice(oid, 0, 2), Slice(oid, 2, 4), oid]);
  }

  /** The URL does not depend on trailing slashes of the URL root. */
  lemma OidUrlIgnoresTrailingSlash(urlRoot: string, repo: string, oid: string)
    ensures OidUrl(urlRoot + "/", repo, oid) == OidUrl(urlRoot, repo, oid)
  {
  }

  /** Two URLs built on the same root for single-segment repository names
      are equal only for the same repository and the same id. */
  lemma OidUrlInjective(urlRoot: string, repo1: string, oid1: string, repo2: string, oid2: string)
    requires '/' !in repo1 && '/' !in repo2
    requires OidUrl(urlRoot, repo1, oid1) == OidUrl(urlRoot, repo2, oid2)
    ensures repo1 == repo2 && oid1 == oid2
  {
    var pre := RStrip(urlRoot, '/') + UploadStoreRoute;
    var t1 := repo1 + "/" + oid1;
    var t2 := repo2 + "/" + oid2;
    assert OidUrl(urlRoot, repo1, oid1) == pre + t1;
    assert OidUrl(urlRoot, repo2, oid2) == pre + t2;
    assert t1 == (pre + t1)[|pre|..] == (pre + t2)[|pre|..] == t2;
    SplitAtSlash(repo1, oid1, repo2, oid2);
  }

  /** `a + "/" + b` determines `a` and `b` when `a` contains no `/`. */
  lemma SplitAtSlash(a1: string, b1: string, a2: string, b2: string)
    requires '/' !in a1 && '/' !in a2
    requires a1 + "/" + b1 == a2 + "/" + b2
    ensures a1 == a2 && b1 == b2
  {
    var t := a1 + "/" + b1;
    FirstSlashOfJoined(a1, b1);
    FirstSlashOfJoined(a2, b2);
    assert a1 == t[..|a1|] == a2;
    assert b1 == t[|a1| + 1..] == b2;
  }
}
