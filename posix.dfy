/**
 * The file-system calls the token migration makes -- os.Stat, os.MkdirAll,
 * os.Rename and os.Remove -- as functions from one file tree to the next.
 * A tree maps each path to a regular file (with its contents) or a directory
 * (with its permission bits). Failures that the tree alone does not decide
 * (permissions, a rename across file systems, an I/O error) come from a
 * Faults record chosen by the environment.
 */
module Posix {
  import opened Wrappers
  import opened Paths

  datatype Entry = File(contents: seq<bv8>) | Directory(perm: nat)

  type Tree = map<Path, Entry>

  /** The error kinds the calls report (ENOENT, ENOTDIR, EISDIR, ENOTEMPTY, EACCES/EXDEV/EIO). */
  datatype Errno = NotExist | NotDir | IsDir | NotEmpty | Denied

  /**
   * Environment-chosen failures: paths whose stat reports an error other than
   * "does not exist", paths that mkdir may not create, target paths that
   * rename may not move a file to, and paths that remove may not delete
   * (EACCES, EBUSY for a directory in use).
   */
  datatype Faults = Faults(statErrors: set<Path>, mkdirErrors: set<Path>, renameErrors: set<Path>, removeErrors: set<Path>)

  /** os.Stat's three outcomes that matter here: an entry, "does not exist", another error. */
  datatype StatResult = Found(entry: Entry) | NotFound | StatError(errno: Errno)

  /** What a mutating call returns: its error (None for nil) and the tree afterwards. */
  datatype Change = Change(err: Option<Errno>, tree: Tree)

  predicate IsDirIn(t: Tree, p: Path)
  {
    p in t && t[p].Directory?
  }

  predicate ParentIsDir(t: Tree, p: Path)
  {
    match Parent(p)
    case None => true
    case Some(q) => IsDirIn(t, q)
  }

  /** Every entry's parent, when it has one, is a directory of the tree. */
  predicate Consistent(t: Tree)
  {
    forall p :: p in t ==> ParentIsDir(t, p)
  }

  /** Some entry lies below directory d. */
  predicate HasChildren(t: Tree, d: Path)
  {
    exists k :: k in t && IsAncestor(d, k)
  }

  /** Some proper ancestor of p is a regular file, so the path cannot be walked. */
  predicate UnderFile(t: Tree, p: Path)
  {
    exists a :: a in t && t[a].File? && IsAncestor(a, p)
  }

  /**
   * os.Stat. An injected error wins; an existing entry is found; a path below a
   * regular file gives ENOTDIR, which is not "does not exist"; otherwise the
   * path does not exist.
   */
  function Stat(t: Tree, f: Faults, p: Path): (r: StatResult)
    ensures r.Found? <==> p in t && p !in f.statErrors
    ensures r.Found? ==> r.entry == t[p]
    ensures r.NotFound? <==> p !in t && p !in f.statErrors && !UnderFile(t, p)
  {
    if p in f.statErrors then StatError(Denied)
    else if p in t then Found(t[p])
    else if UnderFile(t, p) then StatError(NotDir)
    else NotFound
  }

  /**
   * os.MkdirAll: nothing to do when p is already a directory, ENOTDIR when it is
   * something else; otherwise create the parent chain first, then p. A failure
   * part-way leaves the ancestors created so far in place.
   */
  function MkdirAll(t: Tree, f: Faults, p: Path, perm: nat): (r: Change)
    ensures r.err.None? <==> IsDirIn(r.tree, p)
    ensures forall k :: k in t ==> k in r.tree && r.tree[k] == t[k]
    ensures forall k :: k in r.tree && k !in t ==> (k == p || IsAncestor(k, p)) && r.tree[k] == Directory(perm)
    ensures Consistent(t) ==> Consistent(r.tree)
    decreases |p|
  {
    if p in t then
      Change(if t[p].Directory? then None else Some(NotDir), t)
    else
      var up := match Parent(p)
        case None => Change(None, t)
        case Some(q) => MkdirAll(t, f, q, perm);
      NewDirsAbove(t, up.tree, p, perm);
      if up.err.Some? then up
      else if p in f.mkdirErrors then Change(Some(Denied), up.tree)
      else
        AddDirConsistent(up.tree, p, perm);
        Change(None, up.tree[p := Directory(perm)])
  }

  /**
   * The directories made for the parent of p lie above p, so p itself is not
   * among them.
   */
  lemma NewDirsAbove(t: Tree, up: Tree, p: Path, perm: nat)
    requires Parent(p).Some? ==>
      forall k :: k in up && k !in t ==> (k == Parent(p).value || IsAncestor(k, Parent(p).value)) && up[k] == Directory(perm)
    requires Parent(p).None? ==> up == t
    requires p !in t
    ensures forall k :: k in up && k !in t ==> (k == p || IsAncestor(k, p)) && up[k] == Directory(perm)
    ensures p !in up
  {
    forall k | k in up && k !in t
      ensures IsAncestor(k, p) && up[k] == Directory(perm)
    {
      if k != Parent(p).value {
        AncestorTransitive(k, Parent(p).value, p);
      }
    }
  }

  /** Adding a directory whose parent is a directory keeps the tree consistent. */
  lemma AddDirConsistent(t: Tree, p: Path, perm: nat)
    requires Consistent(t) ==> ParentIsDir(t, p)
    ensures Consistent(t) ==> Consistent(t[p := Directory(perm)])
  {
  }

  /**
   * os.Rename of a regular file: the target must not be a directory and its
   * parent must be one; an existing regular file at the target is replaced.
   * A directory source is refused (moving a subtree is not modelled).
   */
  function Rename(t: Tree, f: Faults, from: Path, to: Path): (r: Change)
    ensures r.err.None? <==>
      from in t && t[from].File? && to !in f.renameErrors &&
      (from == to || (ParentIsDir(t, to) && !IsDirIn(t, to)))
    ensures r.err.Some? ==> r.tree == t
    ensures r.err.None? ==> to in r.tree && r.tree[to] == t[from] && (from != to ==> from !in r.tree)
    ensures forall k :: k != from && k != to ==> (k in r.tree <==> k in t)
    ensures forall k :: k in r.tree && k in t && k != to ==> r.tree[k] == t[k]
    ensures Consistent(t) ==> Consistent(r.tree)
  {
    if to in f.renameErrors then Change(Some(Denied), t)
    else if from !in t then Change(Some(NotExist), t)
    else if t[from].Directory? then Change(Some(IsDir), t)
    else if from == to then Change(None, t)
    else if !ParentIsDir(t, to) then Change(Some(NotExist), t)
    else if IsDirIn(t, to) then Change(Some(IsDir), t)
    else Change(None, (t - {from})[to := t[from]])
  }

  /**
   * os.Remove: unlink a file, or remove a directory only when nothing lies
   * below it, unless the removal is refused.
   */
  function Remove(t: Tree, f: Faults, p: Path): (r: Change)
    ensures r.err.None? <==> p in t && p !in f.removeErrors && !(t[p].Directory? && HasChildren(t, p))
    ensures r.err.None? ==> r.tree == t - {p}
    ensures r.err.Some? ==> r.tree == t
    ensures Consistent(t) ==> Consistent(r.tree)
  {
    if p in f.removeErrors then Change(Some(Denied), t)
    else if p !in t then Change(Some(NotExist), t)
    else if t[p].Directory? && HasChildren(t, p) then Change(Some(NotEmpty), t)
    else Change(None, t - {p})
  }

  /**
   * The walk os.MkdirAll makes from p towards the root, stopping at the first
   * path that exists: that path is a directory, and no missing path on the way
   * is one mkdir is refused.
   */
  predicate CanMakeDirs(t: Tree, f: Faults, p: Path)
    decreases |p|
  {
    if p in t then t[p].Directory?
    else
      p !in f.mkdirErrors &&
      match Parent(p)
      case None => true
      case Some(q) => CanMakeDirs(t, f, q)
  }

  /** MkdirAll succeeds exactly when the walk up from p meets no regular file and no refused mkdir. */
  lemma {:induction false} MkdirAllSucceeds(t: Tree, f: Faults, p: Path, perm: nat)
    ensures MkdirAll(t, f, p, perm).err.None? <==> CanMakeDirs(t, f, p)
    decreases |p|
  {
    if p !in t {
      match Parent(p)
      case None =>
      case Some(q) => MkdirAllSucceeds(t, f, q, perm);
    }
  }

  /** A second MkdirAll of the same path changes nothing and fails or succeeds as the first did. */
  lemma {:induction false} MkdirAllIdempotent(t: Tree, f: Faults, p: Path, perm: nat)
    ensures MkdirAll(MkdirAll(t, f, p, perm).tree, f, p, perm) == MkdirAll(t, f, p, perm)
    decreases |p|
  {
    if p !in t {
      match Parent(p)
      case None =>
      case Some(q) => MkdirAllIdempotent(t, f, q, perm);
    }
  }
}
