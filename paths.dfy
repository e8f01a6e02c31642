/**
 * Slash-separated paths as plain strings: the joining done by Go's path.Join and
 * filepath.Join, the directory part returned by filepath.Dir, and the parent step
 * that os.MkdirAll takes. Paths are not cleaned: repeated separators, "." and ".."
 * are kept as written.
 */
module Paths {
  import opened Wrappers

  type Path = string

  /** A single path element: no separator in it. */
  predicate NoSlash(s: string)
  {
    forall i :: 0 <= i < |s| ==> s[i] != '/'
  }

  /** The index of the last separator in p, if p has one. */
  function LastSlash(p: Path): (r: Option<nat>)
    ensures r.Some? ==> r.value < |p| && p[r.value] == '/'
    ensures r.Some? ==> forall i :: r.value < i < |p| ==> p[i] != '/'
    ensures r.None? <==> NoSlash(p)
    decreases |p|
  {
    if p == [] then None
    else if p[|p| - 1] == '/' then Some(|p| - 1)
    else LastSlash(p[..|p| - 1])
  }

  /** a is a proper ancestor of p: p is a followed by a separator and more. */
  predicate IsAncestor(a: Path, p: Path)
  {
    0 < |a| < |p| && p[..|a|] == a && p[|a|] == '/'
  }

  /**
   * Join of a directory and one element, as path.Join and filepath.Join do it for
   * the names used here: an empty directory is dropped, otherwise the two are
   * separated by '/'.
   */
  function Join(dir: Path, name: string): (r: Path)
    ensures dir == "" ==> r == name
    ensures dir != "" ==> |r| == |dir| + 1 + |name| && r[..|dir|] == dir && r[|dir|] == '/' && r[|dir| + 1..] == name
  {
    if dir == "" then name else dir + "/" + name
  }

  /** Joining a single element makes dir its directory, its parent and its ancestor, and name its last element. */
  lemma JoinLayout(dir: Path, name: string)
    requires dir != "" && name != "" && NoSlash(name)
    ensures var r := Join(dir, name);
      LastSlash(r) == Some(|dir|) && Dir(r) == dir && Base(r) == name &&
      Parent(r) == Some(dir) && IsAncestor(dir, r)
  {
  }

  /** filepath.Dir without the final Clean: everything before the last separator. */
  function Dir(p: Path): (r: Path)
    ensures NoSlash(p) ==> r == "."
  {
    match LastSlash(p)
    case None => "."
    case Some(k) => if k == 0 then "/" else p[..k]
  }

  /** The last element of p: everything after the last separator. */
  function Base(p: Path): (r: string)
    ensures NoSlash(r)
    ensures NoSlash(p) ==> r == p
  {
    match LastSlash(p)
    case None => p
    case Some(k) => p[k + 1..]
  }

  /**
   * The directory os.MkdirAll creates before p: the part before the last
   * separator, when that separator is not the first character.
   */
  function Parent(p: Path): (r: Option<Path>)
    ensures r.Some? ==> IsAncestor(r.value, p) && r.value == Dir(p)
    ensures r.None? ==> NoSlash(p) || LastSlash(p) == Some(0)
  {
    match LastSlash(p)
    case None => None
    case Some(k) => if k > 0 then Some(p[..k]) else None
  }

  /** p has a parent directory in the sense of Parent. */
  predicate Nested(p: Path)
  {
    Parent(p).Some?
  }

  /** Splitting a nested path into its directory and last element and joining them again gives the path back. */
  lemma DirBaseJoin(p: Path)
    requires Nested(p)
    ensures Join(Dir(p), Base(p)) == p
  {
    var k := LastSlash(p).value;
    assert p == p[..k] + "/" + p[k + 1..];
  }

  lemma AncestorTransitive(a: Path, b: Path, c: Path)
    requires IsAncestor(a, b) && IsAncestor(b, c)
    ensures IsAncestor(a, c)
  {
  }
}
