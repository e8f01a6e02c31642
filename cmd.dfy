/**
 * The auth-token locator of the command-line client: where the cached
 * authentication token lives, and the one-time move of a token found at the
 * legacy location into the current one.
 */
module Cmd {
  import opened Wrappers
  import opened Paths
  import opened Posix
  import opened Os

  /** The current-user record, of which only the home directory is used. */
  datatype User = User(homeDir: Path)

  /**
   * The environment getDefaultAuthTokenPath consults: $HOME (empty when unset),
   * the result of the current-user lookup, and $XDG_CACHE_HOME (empty when unset).
   */
  datatype Env = Env(home: string, currentUser: Option<User>, xdgCacheHome: string)

  datatype Error = Error(message: string)

  const NoCacheDirMessage: string :=
    "Not able to determine users cache dir. Is the '$HOME', and '$USER' variable a part of the running program environment?"

  /** Permission bits for the created token directory: octal 0700. */
  const DirPerm: nat := 0x1C0

  /** Which step ended a migration. */
  datatype Outcome = NewTokenPresent | NoOldToken | MkdirFailed | RenameFailed | Moved

  datatype Migration = Migration(outcome: Outcome, tree: Tree)

  // ---------------------------------------------------------------------------
  // Path resolution

  /** The user's home directory: $HOME when set, else the current user's, else none. */
  function HomeDir(env: Env): (r: Option<Path>)
    ensures env.home != "" ==> r == Some(env.home)
    ensures env.home == "" && env.currentUser.Some? ==> r == Some(env.currentUser.value.homeDir)
    ensures r.None? <==> env.home == "" && env.currentUser.None?
  {
    if env.home != "" then Some(env.home)
    else if env.currentUser.Some? then Some(env.currentUser.value.homeDir)
    else None
  }

  /** The cache directory: $XDG_CACHE_HOME when set, else ".cache" under home. */
  function CacheDir(env: Env, home: Path): (r: Path)
  {
    if env.xdgCacheHome != "" then env.xdgCacheHome else Join(home, ".cache")
  }

  /** The legacy token file: "authtoken" in the ".mender" directory under home. */
  function LegacyTokenPath(home: Path): (r: Path)
  {
    Join(Join(home, ".mender"), "authtoken")
  }

  /** The canonical token file: "authtoken" in the "mender" directory under the cache directory. */
  function TokenPath(cacheDir: Path): (r: Path)
  {
    Join(Join(cacheDir, "mender"), "authtoken")
  }

  /** $XDG_CACHE_HOME is taken verbatim; without it the cache directory is the ".cache" entry of home. */
  lemma CacheDirChoice(env: Env, home: Path)
    ensures var r := CacheDir(env, home);
      && (env.xdgCacheHome != "" ==> r == env.xdgCacheHome)
      && (env.xdgCacheHome == "" ==> Base(r) == ".cache")
      && (env.xdgCacheHome == "" && home != "" ==> Parent(r) == Some(home))
      && (env.xdgCacheHome == "" && home == "" ==> r == ".cache")
  {
    assert NoSlash(".cache");
    if env.xdgCacheHome == "" && home != "" {
      JoinLayout(home, ".cache");
    }
  }

  /** The element-by-element layout of a token path built as Join(Join(base, dirName), "authtoken"). */
  lemma TokenPathShape(base: Path, dirName: string)
    requires dirName != "" && NoSlash(dirName)
    ensures var r := Join(Join(base, dirName), "authtoken");
      && Nested(r) && Base(r) == "authtoken"
      && Dir(r) == Join(base, dirName) && Base(Dir(r)) == dirName
      && (base != "" ==> Parent(Dir(r)) == Some(base))
  {
    assert NoSlash("authtoken");
    var d := Join(base, dirName);
    if base != "" {
      JoinLayout(base, dirName);
    }
    JoinLayout(d, "authtoken");
  }

  /**
   * The legacy path is "authtoken" in ".mender" under home, the canonical one
   * "authtoken" in "mender" under the cache directory; both have a parent
   * directory, and they never coincide, so the migration never renames a file
   * onto itself.
   */
  lemma TokenPathsLayout(home: Path, cacheDir: Path)
    ensures var legacy, canonical := LegacyTokenPath(home), TokenPath(cacheDir);
      && Nested(legacy) && Base(legacy) == "authtoken" && Base(Dir(legacy)) == ".mender"
      && (home != "" ==> Parent(Dir(legacy)) == Some(home))
      && Nested(canonical) && Base(canonical) == "authtoken" && Base(Dir(canonical)) == "mender"
      && (cacheDir != "" ==> Parent(Dir(canonical)) == Some(cacheDir))
      && legacy != canonical
  {
    assert NoSlash(".mender") && NoSlash("mender");
    TokenPathShape(home, ".mender");
    TokenPathShape(cacheDir, "mender");
    assert ".mender" != "mender";
  }

  // ---------------------------------------------------------------------------
  // Migration

  /**
   * What migrateAuthToken does to the tree: skip unless the new path surely
   * does not exist and the old one stats cleanly; otherwise create the new
   * token's directory, move the token if that worked, and in every case try
   * to remove the legacy directory.
   */
  function Migrate(t: Tree, f: Faults, oldToken: Path, token: Path): (r: Migration)
  {
    if !Stat(t, f, token).NotFound? then Migration(NewTokenPresent, t)
    else if !Stat(t, f, oldToken).Found? then Migration(NoOldToken, t)
    else
      var made := MkdirAll(t, f, Dir(token), DirPerm);
      if made.err.Some? then
        Migration(MkdirFailed, Remove(made.tree, f, Dir(oldToken)).tree)
      else
        var moved := Rename(made.tree, f, oldToken, token);
        Migration(if moved.err.None? then Moved else RenameFailed, Remove(moved.tree, f, Dir(oldToken)).tree)
  }

  /** migrateAuthToken. It reports nothing to its caller, whichever step fails. */
  method MigrateAuthToken(fs: FileSystem, oldToken: Path, token: Path)
    modifies fs
    ensures fs.tree == Migrate(old(fs.tree), fs.faults, oldToken, token).tree
    ensures !Stat(old(fs.tree), fs.faults, token).NotFound? ==> fs.tree == old(fs.tree)
    ensures !Stat(old(fs.tree), fs.faults, oldToken).Found? ==> fs.tree == old(fs.tree)
    ensures Consistent(old(fs.tree)) ==> Consistent(fs.tree)
  {
    var st := fs.Stat(token);
    if !st.NotFound? {
      return;
    }
    st := fs.Stat(oldToken);
    if !st.Found? {
      return;
    }
    var err := fs.MkdirAll(Dir(token), DirPerm);
    if err.None? {
      err := fs.Rename(oldToken, token);
    }
    err := fs.Remove(Dir(oldToken));
  }

  /**
   * getDefaultAuthTokenPath: an error and an empty path when no home directory
   * can be found (the file system untouched); otherwise the canonical token
   * path, after migrating a legacy token there.
   */
  method GetDefaultAuthTokenPath(env: Env, fs: FileSystem) returns (token: Path, err: Option<Error>)
    modifies fs
    ensures err.Some? <==> HomeDir(env).None?
    ensures err.Some? ==> token == "" && err.value.message == NoCacheDirMessage && fs.tree == old(fs.tree)
    ensures err.None? ==> token == TokenPath(CacheDir(env, HomeDir(env).value))
    ensures err.None? ==>
      fs.tree == Migrate(old(fs.tree), fs.faults, LegacyTokenPath(HomeDir(env).value), token).tree
    ensures err.None? && Consistent(old(fs.tree)) ==>
      Migrate(fs.tree, fs.faults, LegacyTokenPath(HomeDir(env).value), token).tree == fs.tree
  {
    ghost var before := fs.tree;
    var userHomeDir: Path;
    if env.home != "" {
      userHomeDir := env.home;
    } else if env.currentUser.Some? {
      userHomeDir := env.currentUser.value.homeDir;
    } else {
      return "", Some(Error(NoCacheDirMessage));
    }

    var cacheDir: Path;
    if env.xdgCacheHome != "" {
      cacheDir := env.xdgCacheHome;
    } else {
      cacheDir := Join(userHomeDir, ".cache");
    }

    var oldToken := Join(Join(userHomeDir, ".mender"), "authtoken");
    token := Join(Join(cacheDir, "mender"), "authtoken");

    MigrateAuthToken(fs, oldToken, token);
    err := None;
    if Consistent(before) {
      DefaultMigrationIdempotent(env, before, fs.faults);
    }
  }

  // ---------------------------------------------------------------------------
  // Properties of the migration

  /** Both skip conditions leave the tree exactly as it was. */
  lemma MigrateSkips(t: Tree, f: Faults, oldToken: Path, token: Path)
    ensures !Stat(t, f, token).NotFound? ==> Migrate(t, f, oldToken, token) == Migration(NewTokenPresent, t)
    ensures Stat(t, f, token).NotFound? && !Stat(t, f, oldToken).Found? ==>
      Migrate(t, f, oldToken, token) == Migration(NoOldToken, t)
  {
  }

  /**
   * Nothing already in the tree is modified in place; only the old token and
   * the legacy directory can disappear; what appears is the new token or a
   * directory created above it with the migration's permission bits.
   */
  lemma MigrateFrame(t: Tree, f: Faults, oldToken: Path, token: Path)
    requires Nested(token)
    ensures var r := Migrate(t, f, oldToken, token).tree;
      && (forall k :: k in t && k in r ==> r[k] == t[k])
      && (forall k :: k in t && k !in r ==> k == oldToken || k == Dir(oldToken))
      && (forall k :: k in r && k !in t ==> k == token || (IsAncestor(k, token) && r[k] == Directory(DirPerm)))
  {
    if Stat(t, f, token).NotFound? && Stat(t, f, oldToken).Found? {
      var dir := Dir(token);
      assert IsAncestor(dir, token);
      var made := MkdirAll(t, f, dir, DirPerm);
      forall k | k in made.tree && k !in t
        ensures IsAncestor(k, token) && made.tree[k] == Directory(DirPerm)
      {
        if k != dir {
          AncestorTransitive(k, dir, token);
        }
      }
    }
  }

  /** Every step keeps each entry's parent a directory. */
  lemma MigrateConsistent(t: Tree, f: Faults, oldToken: Path, token: Path)
    requires Consistent(t)
    ensures Consistent(Migrate(t, f, oldToken, token).tree)
  {
  }

  /**
   * The token is moved exactly when the new path is surely absent, the old
   * token is a regular file, the walk up from the new token's directory meets
   * no regular file and no refused mkdir, and the rename is not refused. Then the new path holds the old contents, the old
   * path is gone, and the legacy directory survives only if something is
   * still in it or its removal is refused.
   */
  lemma MigrateMoves(t: Tree, f: Faults, oldToken: Path, token: Path)
    requires Consistent(t) && Nested(oldToken) && Nested(token)
    ensures var r := Migrate(t, f, oldToken, token);
      r.outcome == Moved <==>
        && Stat(t, f, token).NotFound?
        && Stat(t, f, oldToken).Found? && t[oldToken].File?
        && CanMakeDirs(t, f, Dir(token))
        && token !in f.renameErrors
    ensures var r := Migrate(t, f, oldToken, token);
      r.outcome == Moved ==>
        && token in r.tree && r.tree[token] == t[oldToken]
        && oldToken !in r.tree
        && (Dir(oldToken) in r.tree <==> HasChildren(r.tree, Dir(oldToken)) || Dir(oldToken) in f.removeErrors)
  {
    MkdirAllSucceeds(t, f, Dir(token), DirPerm);
  }

  /**
   * When directory creation or the rename fails, the old token stays where it
   * was, so the legacy directory is not removed and no new token appears; a
   * failed directory creation leaves only the directories it managed to make.
   */
  lemma MigrateFailureKeepsOldToken(t: Tree, f: Faults, oldToken: Path, token: Path)
    requires Consistent(t) && Nested(oldToken) && Nested(token)
    ensures var r := Migrate(t, f, oldToken, token);
      r.outcome == MkdirFailed ==> r.tree == MkdirAll(t, f, Dir(token), DirPerm).tree
    ensures var r := Migrate(t, f, oldToken, token);
      r.outcome in {MkdirFailed, RenameFailed} ==>
        && oldToken in r.tree && r.tree[oldToken] == t[oldToken]
        && IsDirIn(r.tree, Dir(oldToken))
        && token !in r.tree
  {
  }

  /**
   * Once the token has been moved, any later migration leaves the tree alone,
   * whatever faults the file system injects then: the new path exists, so its
   * stat is never "does not exist".
   */
  lemma MovedIsFinal(t: Tree, f: Faults, f2: Faults, oldToken: Path, token: Path)
    requires Consistent(t) && Nested(oldToken) && Nested(token)
    ensures var r := Migrate(t, f, oldToken, token);
      r.outcome == Moved ==> Migrate(r.tree, f2, oldToken, token) == Migration(NewTokenPresent, r.tree)
  {
    var r := Migrate(t, f, oldToken, token);
    if r.outcome == Moved {
      MigrateMoves(t, f, oldToken, token);
      assert token in r.tree;
      assert !Stat(r.tree, f2, token).NotFound?;
    }
  }

  /**
   * A second migration over the result of the first, under the same faults,
   * changes nothing.
   */
  lemma MigrateIdempotent(t: Tree, f: Faults, oldToken: Path, token: Path)
    requires Consistent(t) && Nested(oldToken) && Nested(token)
    ensures var r := Migrate(t, f, oldToken, token).tree;
      Migrate(r, f, oldToken, token).tree == r
  {
    var r := Migrate(t, f, oldToken, token);
    MigrateMoves(t, f, oldToken, token);
    MigrateFailureKeepsOldToken(t, f, oldToken, token);
    if r.outcome in {MkdirFailed, RenameFailed} {
      var made := MkdirAll(t, f, Dir(token), DirPerm);
      MkdirAllIdempotent(t, f, Dir(token), DirPerm);
      assert r.tree == made.tree;
      assert !UnderFile(r.tree, token);
      assert Stat(r.tree, f, token).NotFound?;
      assert Stat(r.tree, f, oldToken).Found?;
    }
  }

  // ---------------------------------------------------------------------------
  // Properties of the resolved paths

  /** A non-empty $HOME decides the home directory; the user lookup is never consulted. */
  lemma HomeEnvWins(e1: Env, e2: Env)
    requires e1.home != "" && e1.home == e2.home && e1.xdgCacheHome == e2.xdgCacheHome
    ensures HomeDir(e1) == HomeDir(e2)
    ensures TokenPath(CacheDir(e1, HomeDir(e1).value)) == TokenPath(CacheDir(e2, HomeDir(e2).value))
  {
  }

  /**
   * For the paths getDefaultAuthTokenPath builds, migrating twice is migrating
   * once: a second call finds the tree as the first left it and changes nothing.
   */
  lemma DefaultMigrationIdempotent(env: Env, t: Tree, f: Faults)
    requires HomeDir(env).Some? && Consistent(t)
    ensures var home := HomeDir(env).value;
      var oldToken, token := LegacyTokenPath(home), TokenPath(CacheDir(env, home));
      var once := Migrate(t, f, oldToken, token).tree;
      Migrate(once, f, oldToken, token).tree == once
  {
    var home := HomeDir(env).value;
    TokenPathsLayout(home, CacheDir(env, home));
    MigrateIdempotent(t, f, LegacyTokenPath(home), TokenPath(CacheDir(env, home)));
  }

  /** The tree of the example below: a legacy token alone in its directory. */
  function LegacyOnlyTree(contents: seq<bv8>): (r: Tree)
  {
    map["/home" := Directory(0x1ED), "/home/u" := Directory(0x1ED),
        "/home/u/.mender" := Directory(DirPerm), "/home/u/.mender/authtoken" := File(contents)]
  }

  /** The example's canonical token path and its directory, spelled out. */
  lemma ScenarioTokenPath()
    ensures TokenPath(CacheDir(Env("/home/u", None, ""), "/home/u")) == "/home/u/.cache/mender/authtoken"
    ensures Dir("/home/u/.cache/mender/authtoken") == "/home/u/.cache/mender"
  {
    assert NoSlash("authtoken");
    assert Join("/home/u", ".cache") == "/home/u/.cache";
    assert Join("/home/u/.cache", "mender") == "/home/u/.cache/mender";
    assert Join("/home/u/.cache/mender", "authtoken") == "/home/u/.cache/mender/authtoken";
    JoinLayout("/home/u/.cache/mender", "authtoken");
  }

  /** The example's legacy token path and its directory, spelled out. */
  lemma ScenarioLegacyPath()
    ensures LegacyTokenPath("/home/u") == "/home/u/.mender/authtoken"
    ensures Dir("/home/u/.mender/authtoken") == "/home/u/.mender"
  {
    assert NoSlash("authtoken");
    assert Join("/home/u", ".mender") == "/home/u/.mender";
    assert Join("/home/u/.mender", "authtoken") == "/home/u/.mender/authtoken";
    JoinLayout("/home/u/.mender", "authtoken");
  }

  /** In the example, the new path does not exist and the legacy token is found. */
  lemma ScenarioStats(contents: seq<bv8>)
    ensures Stat(LegacyOnlyTree(contents), Faults({}, {}, {}, {}), "/home/u/.cache/mender/authtoken").NotFound?
    ensures Stat(LegacyOnlyTree(contents), Faults({}, {}, {}, {}), "/home/u/.mender/authtoken").Found?
  {
  }

  /** In the example, MkdirAll creates the cache directory and its mender directory. */
  lemma ScenarioMkdir(contents: seq<bv8>)
    ensures MkdirAll(LegacyOnlyTree(contents), Faults({}, {}, {}, {}), "/home/u/.cache/mender", DirPerm) ==
      Change(None, LegacyOnlyTree(contents)["/home/u/.cache" := Directory(DirPerm)]["/home/u/.cache/mender" := Directory(DirPerm)])
  {
    var f := Faults({}, {}, {}, {});
    var t := LegacyOnlyTree(contents);
    assert NoSlash(".cache") && NoSlash("mender");
    assert Join("/home/u", ".cache") == "/home/u/.cache";
    assert Join("/home/u/.cache", "mender") == "/home/u/.cache/mender";
    JoinLayout("/home/u", ".cache");
    JoinLayout("/home/u/.cache", "mender");
    assert MkdirAll(t, f, "/home/u", DirPerm) == Change(None, t);
    assert MkdirAll(t, f, "/home/u/.cache", DirPerm) == Change(None, t["/home/u/.cache" := Directory(DirPerm)]);
  }

  /** The example's tree after the rename, before the legacy directory is removed. */
  function MovedTree(contents: seq<bv8>): (r: Tree)
  {
    map["/home" := Directory(0x1ED), "/home/u" := Directory(0x1ED), "/home/u/.mender" := Directory(DirPerm),
        "/home/u/.cache" := Directory(DirPerm), "/home/u/.cache/mender" := Directory(DirPerm),
        "/home/u/.cache/mender/authtoken" := File(contents)]
  }

  /** In the example, the rename succeeds and moves the token. */
  lemma ScenarioRename(contents: seq<bv8>)
    ensures var t2 := LegacyOnlyTree(contents)["/home/u/.cache" := Directory(DirPerm)]["/home/u/.cache/mender" := Directory(DirPerm)];
      Rename(t2, Faults({}, {}, {}, {}), "/home/u/.mender/authtoken", "/home/u/.cache/mender/authtoken") ==
        Change(None, MovedTree(contents))
  {
    var token: Path := "/home/u/.cache/mender/authtoken";
    assert NoSlash("authtoken");
    assert Join("/home/u/.cache/mender", "authtoken") == token;
    JoinLayout("/home/u/.cache/mender", "authtoken");
    var legacy: Path := "/home/u/.mender/authtoken";
    var t2 := LegacyOnlyTree(contents)["/home/u/.cache" := Directory(DirPerm)]["/home/u/.cache/mender" := Directory(DirPerm)];
    assert |token| == 31 && |legacy| == 25;
    assert token !in t2;
    assert legacy in t2 && t2[legacy].File?;
    assert ParentIsDir(t2, token);
    assert (t2 - {legacy})[token := File(contents)] == MovedTree(contents);
  }

  /** In the example, the emptied legacy directory is removed. */
  lemma ScenarioRemove(contents: seq<bv8>)
    ensures Remove(MovedTree(contents), Faults({}, {}, {}, {}), "/home/u/.mender").tree == map[
      "/home" := Directory(0x1ED), "/home/u" := Directory(0x1ED),
      "/home/u/.cache" := Directory(DirPerm), "/home/u/.cache/mender" := Directory(DirPerm),
      "/home/u/.cache/mender/authtoken" := File(contents)]
  {
  }

  /**
   * $HOME=/home/u, no $XDG_CACHE_HOME, a legacy token alone in /home/u/.mender
   * and no canonical token: the returned path is /home/u/.cache/mender/authtoken,
   * the token ends up there with its contents, the two directories above it are
   * created, and the legacy file and its directory are gone.
   */
  lemma LegacyTokenScenario(contents: seq<bv8>)
    ensures var env := Env("/home/u", None, "");
      var home := HomeDir(env).value;
      var token := TokenPath(CacheDir(env, home));
      && token == "/home/u/.cache/mender/authtoken"
      && Migrate(LegacyOnlyTree(contents), Faults({}, {}, {}, {}), LegacyTokenPath(home), token).tree == map[
        "/home" := Directory(0x1ED), "/home/u" := Directory(0x1ED),
        "/home/u/.cache" := Directory(DirPerm), "/home/u/.cache/mender" := Directory(DirPerm),
        "/home/u/.cache/mender/authtoken" := File(contents)]
  {
    ScenarioTokenPath();
    ScenarioLegacyPath();
    ScenarioStats(contents);
    ScenarioMkdir(contents);
    ScenarioRename(contents);
    ScenarioRemove(contents);
  }
}
