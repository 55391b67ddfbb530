/**
 * Path building as `filepath.Join` is used by the mirror: two components
 * joined by the separator. For a clean directory and a plain name this is
 * what `filepath.Join` computes; Go's lexical cleaning of other inputs
 * (`..`, doubled or trailing slashes, an empty name) is not modelled.
 */
module Paths {
  import GoStrings

  const Separator: char := '/'

  /** One path component that `filepath.Join` leaves as it is: not empty, not `.` or `..`, no separator. */
  predicate PlainName(n: string)
  {
    n != "" && n != "." && n != ".." && Separator !in n
  }

  /**
   * A path that `filepath.Clean` leaves as it is, other than `/` and `.`:
   * plain components separated by single separators, with an optional
   * leading separator and none at the end.
   */
  predicate CleanDir(d: string)
  {
    var parts := GoStrings.Split(d, Separator);
    d != "" &&
    (parts[0] == "" || PlainName(parts[0])) &&
    forall i :: 1 <= i < |parts| ==> PlainName(parts[i])
  }

  /** `filepath.Join(dir, elem)` for a `CleanDir` directory and a `PlainName` element. */
  function Join(dir: string, elem: string): string
  {
    dir + [Separator] + elem
  }

  /** A joined path is the directory, the separator, then the name. */
  lemma JoinParts(dir: string, elem: string)
    ensures |Join(dir, elem)| == |dir| + 1 + |elem|
    ensures Join(dir, elem)[..|dir|] == dir && Join(dir, elem)[|dir|] == Separator
    ensures Join(dir, elem)[|dir| + 1..] == elem
  {
  }

  /** Inside one directory, distinct names give distinct paths, and equal names equal ones. */
  lemma JoinInjective(dir: string, a: string, b: string)
    ensures Join(dir, a) == Join(dir, b) <==> a == b
  {
    if Join(dir, a) == Join(dir, b) {
      assert a == Join(dir, a)[|dir| + 1..];
      assert b == Join(dir, b)[|dir| + 1..];
    }
  }
}
