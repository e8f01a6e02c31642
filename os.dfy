/**
 * The file system as the running process sees it: a tree that the calls change
 * in place, and the faults the environment injects into them. Each method is one
 * system call and does to the tree what the Posix function of the same name says.
 */
module Os {
  import opened Wrappers
  import opened Paths
  import opened Posix

  class FileSystem {
    var tree: Tree
    const faults: Faults

    constructor (tree: Tree, faults: Faults)
      ensures this.tree == tree && this.faults == faults
    {
      this.tree := tree;
      this.faults := faults;
    }

    /** os.Stat: reads the tree, changes nothing. */
    method Stat(p: Path) returns (r: StatResult)
      ensures r.Found? <==> p in tree && p !in faults.statErrors
      ensures r.Found? ==> r.entry == tree[p]
      ensures r.NotFound? <==> p !in tree && p !in faults.statErrors && !UnderFile(tree, p)
    {
      r := Posix.Stat(tree, faults, p);
    }

    /** os.MkdirAll. */
    method MkdirAll(p: Path, perm: nat) returns (err: Option<Errno>)
      modifies this
      ensures Change(err, tree) == Posix.MkdirAll(old(tree), faults, p, perm)
      ensures err.None? <==> IsDirIn(tree, p)
    {
      var r := Posix.MkdirAll(tree, faults, p, perm);
      err, tree := r.err, r.tree;
    }

    /** os.Rename. */
    method Rename(from: Path, to: Path) returns (err: Option<Errno>)
      modifies this
      ensures Change(err, tree) == Posix.Rename(old(tree), faults, from, to)
      ensures err.Some? ==> tree == old(tree)
    {
      var r := Posix.Rename(tree, faults, from, to);
      err, tree := r.err, r.tree;
    }

    /** os.Remove. */
    method Remove(p: Path) returns (err: Option<Errno>)
      modifies this
      ensures Change(err, tree) == Posix.Remove(old(tree), faults, p)
      ensures err.None? ==> tree == old(tree) - {p}
      ensures err.Some? ==> tree == old(tree)
    {
      var r := Posix.Remove(tree, faults, p);
      err, tree := r.err, r.tree;
    }
  }
}
