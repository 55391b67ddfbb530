/**
 * Repository descriptors: the records read from the mapping file and the
 * `repo` values the mirror works on, each rooted at `<cacheDir>/<name>`.
 */
module Config {
  import Paths

  /** One entry of the mapping file: a name, the source (`ado`) and the destination (`bb`). */
  datatype RepoMap = RepoMap(name: string, ado: string, bitBucket: string)

  /** A repository to mirror: its local cache directory, name, source and destination. */
  datatype Repo = Repo(root: string, name: string, source: string, destination: string)

  /** The run: the repositories in mapping-file order and the cache directory. */
  datatype Mirror = Mirror(repos: seq<Repo>, cacheDir: string)

  /** `re` holds one descriptor per mapping record, in order, rooted under `cacheDir`. */
  ghost predicate Describes(cacheDir: string, maps: seq<RepoMap>, re: seq<Repo>)
  {
    |re| == |maps| &&
    forall i :: 0 <= i < |re| ==>
      re[i].root == Paths.Join(cacheDir, maps[i].name) &&
      re[i].name == maps[i].name &&
      re[i].source == maps[i].ado &&
      re[i].destination == maps[i].bitBucket
  }

  /** The loop of `main` that turns the mapping records into descriptors. */
  method BuildRepos(cacheDir: string, maps: seq<RepoMap>) returns (re: seq<Repo>)
    ensures Describes(cacheDir, maps, re)
  {
    re := [];
    for k := 0 to |maps|
      invariant |re| == k
      invariant forall i :: 0 <= i < k ==>
        re[i].root == Paths.Join(cacheDir, maps[i].name) &&
        re[i].name == maps[i].name &&
        re[i].source == maps[i].ado &&
        re[i].destination == maps[i].bitBucket
    {
      var r := maps[k];
      var newRepo := Repo(Paths.Join(cacheDir, r.name), r.name, r.ado, r.bitBucket);
      re := re + [newRepo];
    }
  }

  /**
   * A clean cache directory and plain record names: the inputs on which the
   * roots built here are the ones `filepath.Join` builds.
   */
  predicate PlainLayout(cacheDir: string, maps: seq<RepoMap>)
  {
    Paths.CleanDir(cacheDir) &&
    forall i :: 0 <= i < |maps| ==> Paths.PlainName(maps[i].name)
  }

  ghost predicate DistinctRoots(re: seq<Repo>)
  {
    forall i, j :: 0 <= i < j < |re| ==> re[i].root != re[j].root
  }

  ghost predicate DistinctNames(maps: seq<RepoMap>)
  {
    forall i, j :: 0 <= i < j < |maps| ==> maps[i].name != maps[j].name
  }

  /**
   * No two repositories share a cache directory exactly when no two mapping
   * records share a name: the program itself does not check names for
   * uniqueness.
   */
  lemma RootsDistinctIffNamesDistinct(cacheDir: string, maps: seq<RepoMap>, re: seq<Repo>)
    requires PlainLayout(cacheDir, maps)
    requires Describes(cacheDir, maps, re)
    ensures DistinctRoots(re) <==> DistinctNames(maps)
  {
    forall i, j | 0 <= i < j < |re|
      ensures re[i].root == re[j].root <==> maps[i].name == maps[j].name
    {
      Paths.JoinInjective(cacheDir, maps[i].name, maps[j].name);
    }
  }

  /**
   * Every root lies one plain component below the cache directory: it is
   * never the cache directory itself, so removing a root never removes the
   * cache or another repository's root.
   */
  lemma RootsUnderCacheDir(cacheDir: string, maps: seq<RepoMap>, re: seq<Repo>)
    requires PlainLayout(cacheDir, maps)
    requires Describes(cacheDir, maps, re)
    ensures forall i :: 0 <= i < |re| ==>
      |re[i].root| > |cacheDir| + 1 &&
      re[i].root[..|cacheDir|] == cacheDir && re[i].root[|cacheDir|] == Paths.Separator &&
      Paths.PlainName(re[i].root[|cacheDir| + 1..])
  {
    forall i | 0 <= i < |re|
      ensures |re[i].root| > |cacheDir| + 1
      ensures re[i].root[..|cacheDir|] == cacheDir && re[i].root[|cacheDir|] == Paths.Separator
      ensures Paths.PlainName(re[i].root[|cacheDir| + 1..])
    {
      Paths.JoinParts(cacheDir, maps[i].name);
    }
  }
}
