# mender-cli auth-token locator, modelled in Dafny

The command-line client keeps its authentication token in a cache file.
Before an authenticated request, `getDefaultAuthTokenPath` (cmd/util.go) works out
where that file lives and returns the path. The home directory is `$HOME`, or
else the current user's home directory. The cache directory is
`$XDG_CACHE_HOME`, or else `<home>/.cache`. The token file is
`<cache>/mender/authtoken`. As a side effect, `migrateAuthToken` moves a token
left at the legacy location `<home>/.mender/authtoken` into the new place. This
is best effort: it skips unless the new path certainly does not exist and the
old one stats cleanly, creates the new directory with mode 0700, renames the
file, and then tries to remove the legacy directory. It never reports a failure.
The artifact-listing command (cmd/artifacts_list.go:72-77) calls
`getDefaultAuthTokenPath` only when no explicit token flag was given. That caller
is not part of this model.

The project has five modules:

- `Wrappers` (wrappers.dfy): `Option`.
- `Paths` (paths.dfy): paths as strings. It has `Join` (path.Join / filepath.Join
  of one element), `Dir` (filepath.Dir), `Base`, and `Parent`, which is the parent
  step os.MkdirAll takes.
- `Posix` (posix.dfy): the four system calls the migration makes, as functions
  from one file tree to the next. A tree is a `map` from path to `File(contents)`
  or `Directory(perm)`. `Stat` has three outcomes: found, does not exist, and
  another error. Failures that the tree alone does not decide come from a `Faults`
  record: stat errors such as EACCES or EIO, directories mkdir may not create,
  rename targets that are refused (for example EXDEV across file systems), and
  removals that are refused (EACCES, or EBUSY for a directory in use).
- `Os` (os.dfy): class `FileSystem`. It holds the tree as a field that its
  methods `Stat`, `MkdirAll`, `Rename` and `Remove` update in place.
- `Cmd` (cmd.dfy): `GetDefaultAuthTokenPath` and `MigrateAuthToken` as methods
  that mirror the Go code step by step. It also holds the specification functions
  `HomeDir`, `CacheDir`, `LegacyTokenPath`, `TokenPath` and `Migrate`, and the
  lemmas about them.

The environment is passed in as an explicit `Env` value. It holds `$HOME`, the
result of the current-user lookup as an `Option`, and `$XDG_CACHE_HOME`. An unset
variable is the empty string, as Go's `os.Getenv` reports it.

`Consistent(t)` says that every entry's parent is a directory of the tree. It
holds of any real file system. The migration preserves it, and the lemmas about
the legacy directory and idempotence require it.

The source's comments describe the two skips more narrowly than the code
(cmd/util.go:35 "new token exists", cmd/util.go:40 "old token doesn't exist").
The model follows the code:

- The first skip happens whenever stat of the new path gives anything other than
  "does not exist". That includes a permission error, or ENOTDIR because a
  regular file sits where a directory should be. It is not only the case where
  an entry exists.
- The second skip happens on any stat error of the old path, not only when the
  old path does not exist.
- The legacy directory is removed only when both stat checks were passed.

## Model

| member | source | states |
|---|---|---|
| `Cmd.HomeDir` | cmd/util.go:58-64 | A non-empty `$HOME` is the home directory. With `$HOME` empty, the current user's home directory is used if the lookup succeeded. There is no home directory exactly when `$HOME` is empty and the lookup failed. |
| `Cmd.HomeEnvWins` | cmd/util.go:58-61 | Two environments with the same non-empty `$HOME` and `$XDG_CACHE_HOME` give the same home directory and token path, whatever their user lookups return. |
| `Cmd.CacheDirChoice` | cmd/util.go:66-70 | A non-empty `$XDG_CACHE_HOME` is the cache directory verbatim. Otherwise the cache directory's last element is `.cache` and its parent is the home directory (or it is just `.cache` when home is empty). |
| `Cmd.TokenPathsLayout` | cmd/util.go:72-73 | The legacy path is `authtoken` inside `.mender` under home. The canonical path is `authtoken` inside `mender` under the cache directory. Both have a parent directory, and the two paths are never equal. |
| `Cmd.GetDefaultAuthTokenPath` | cmd/util.go:54-78 | Returns an error (with the source's message) and an empty path exactly when no home directory can be found, and then leaves the file system untouched. Otherwise it returns `TokenPath(CacheDir(..))` whatever the migration did, the tree is the result of `Migrate` on the two paths, and on a consistent tree a second call under the same faults would change nothing. |
| `Cmd.Migrate` | cmd/util.go:32-52 | The specification function of `migrateAuthToken`: the resulting tree and the step that ended the migration. Its properties are stated by `MigrateSkips`, `MigrateFrame`, `MigrateConsistent`, `MigrateMoves`, `MigrateFailureKeepsOldToken`, `MovedIsFinal` and `MigrateIdempotent`. |
| `Cmd.CacheDir` | cmd/util.go:66-70 | The cache directory. Its properties are stated by `CacheDirChoice`. |
| `Cmd.LegacyTokenPath` | cmd/util.go:72 | The legacy token path. Its layout is stated by `TokenPathsLayout`. |
| `Cmd.TokenPath` | cmd/util.go:73 | The canonical token path. Its layout is stated by `TokenPathsLayout`. |
| `Cmd.MigrateAuthToken` | cmd/util.go:32-52 | The new tree is `Migrate` of the old one. The tree is unchanged when the new path's stat is not "does not exist", or when the old path's stat is not a clean find. Consistency is preserved. Nothing is returned, so no failure reaches the caller. |
| `Cmd.MigrateSkips` | cmd/util.go:34-42 | Either skip condition yields exactly the input tree: the new path does not stat as "does not exist", or the old path does not stat cleanly. |
| `Cmd.MigrateFrame` | cmd/util.go:44-51 | No existing entry changes its contents. Only the old token and the legacy directory can disappear. Every new entry is the new token or a directory above it with mode 0700. |
| `Cmd.MigrateConsistent` | cmd/util.go:44-51 | Migration keeps every entry's parent a directory. |
| `Cmd.MigrateMoves` | cmd/util.go:44-51 | The token is moved if and only if: the new path is absent, the old token is a regular file, the walk up from the new token's directory meets no regular file and no refused mkdir (`CanMakeDirs`), and the rename target is not refused. When it is moved, the new path holds the old contents, the old path is gone, and the legacy directory survives exactly when something still lies below it or its removal is refused. |
| `Cmd.MigrateFailureKeepsOldToken` | cmd/util.go:44-51 | After a failed mkdir or a failed rename, the old token is still in place with its contents, the legacy directory still exists, and no new token exists. After a failed mkdir, no rename happened and the only changes are the directories mkdir managed to create. |
| `Cmd.MovedIsFinal` | cmd/util.go:34-37 | Once the token has been moved, a later migration skips at the first check and leaves the tree alone, whatever faults the file system injects then. |
| `Cmd.MigrateIdempotent` | cmd/util.go:32-52 | On a consistent tree, migrating the result a second time under the same faults changes nothing, whichever way the first migration ended. |
| `Cmd.DefaultMigrationIdempotent` | cmd/util.go:72-75 | For the two paths `getDefaultAuthTokenPath` builds, a second migration under the same faults leaves the file system as the first one left it. |
| `Cmd.LegacyTokenScenario` | cmd/util.go:54-78 | Worked example: `HOME=/home/u`, no `XDG_CACHE_HOME`, and a legacy token alone in `/home/u/.mender`. The returned path is `/home/u/.cache/mender/authtoken`. The final tree is exactly the original directories plus `/home/u/.cache` and `/home/u/.cache/mender`, with the token there. The legacy file and its directory are gone. |
| `Posix.Stat` | cmd/util.go:34-42 | Found exactly when the path is in the tree and its stat is not failed. "Does not exist" exactly when the path is absent, its stat is not failed, and no ancestor is a regular file. |
| `Posix.MkdirAll` | cmd/util.go:45 | Succeeds exactly when the path is a directory afterwards. Existing entries are kept unchanged. Every added entry is the path or one of its ancestors, created with the given mode. Consistency is preserved. |
| `Posix.MkdirAllSucceeds` | cmd/util.go:45 | MkdirAll returns nil exactly when the walk from the path towards the root, up to the first existing entry, ends at a directory and meets no path whose mkdir is refused. |
| `Posix.MkdirAllIdempotent` | cmd/util.go:45 | Repeating MkdirAll on its own result returns the same error and the same tree. |
| `Posix.Rename` | cmd/util.go:47 | Succeeds exactly when: the source is a regular file, the target is not refused, the target's parent is a directory, and the target is not a directory. On success the target holds the source's contents and the source is gone. On failure the tree is unchanged. Other entries are never touched. Consistency is preserved. |
| `Posix.Remove` | cmd/util.go:51 | Succeeds exactly when the path exists, its removal is not refused, and it is not a directory with something below it. It removes only that path, and on failure nothing changes. Consistency is preserved. |
| `Os.FileSystem.Stat` | cmd/util.go:34-42 | The stat outcome read off the object's current tree and faults, with the same three-way characterisation. |
| `Os.FileSystem.MkdirAll` | cmd/util.go:45 | Updates the tree in place as `Posix.MkdirAll` says. It returns nil exactly when the path is then a directory. |
| `Os.FileSystem.Rename` | cmd/util.go:47 | Updates the tree in place as `Posix.Rename` says. A failure leaves the tree as it was. |
| `Os.FileSystem.Remove` | cmd/util.go:51 | Updates the tree in place as `Posix.Remove` says: the path alone is removed on success, and nothing changes on failure. |
| `Paths.Join` | cmd/util.go:69-73 | An empty directory is dropped. Otherwise the result is the directory, a separator, then the element. |
| `Paths.JoinLayout` | cmd/util.go:72-73 | Joining a single non-empty element makes the directory its `Dir`, its `Parent` and its ancestor, and makes the element its `Base`. |
| `Paths.Dir` | cmd/util.go:45-51 | A path without a separator has directory `.`. |
| `Paths.DirBaseJoin` | cmd/util.go:45-51 | For a path with a parent, joining its `Dir` and its `Base` gives the path back. With `JoinLayout` this makes `Join` and (`Dir`, `Base`) inverse in both directions. |
| `Paths.Parent` | cmd/util.go:45 | The parent MkdirAll creates first is a proper ancestor of the path and equals its `Dir`. |

## Left out

- `CheckErr` (cmd/util.go:25-30): it prints to stderr and exits the process, so there is nothing to state about it.
- cmd/artifacts_list.go: flag parsing and the deployments HTTP client are not part of this model. Only the fallback to `getDefaultAuthTokenPath` when no token flag is given is described above.
- Path cleaning: `path.Join`, `filepath.Join` and `filepath.Dir` clean their results (repeated or trailing separators, `.` and `..`). The model keeps paths exactly as joined, so `/` as a home directory gives `//.mender`. Only `/` is a separator.
- `Posix.Rename`: renaming a directory is refused in the model. The real rename would move the whole subtree. A legacy token that is a directory is therefore never moved.
- `Posix.MkdirAll`: the injected stat errors affect only the two stat calls of the migration, not the stat inside MkdirAll. Go's fallback that accepts a directory created concurrently is left out. The mode is recorded as requested, without applying a umask.
- `Posix.Stat`: only the entry is returned, not the rest of the file information.
- Permission checks, ownership and modes other than the one requested are left out. Refused operations are expressed only through the `Faults` record.
- Faults are fixed for the life of a `FileSystem`. A transient error, present in one call and gone in the next, is not modelled. So `MigrateIdempotent`, `DefaultMigrationIdempotent` and the second-call clause of `GetDefaultAuthTokenPath` hold only under the same faults. `MovedIsFinal` holds under any faults.
- Symbolic links: entries are only regular files and directories. os.Stat follows links, so a dangling link at the new path would stat as "does not exist" and the rename would then replace the link. The model cannot represent such a link.
- Concurrency: two processes migrating at once, and the atomicity of rename, are not modelled. Every call is one step on one tree.
- `user.Current()` is an input (`Option<User>`). Its lookup through the operating system is not modelled.
- Logging: the Go code logs nothing. `Migrate` records which step ended the migration (`Outcome`), but that value never reaches a caller.
