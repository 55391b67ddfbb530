# gitmirror in Dafny

gitmirror keeps a local bare-mirror cache of a list of git repositories and,
when mirroring is switched on, force-pushes each of them to a second host.
A mapping file lists, for every repository, a name, a source URL (`ado`) and
a destination connection string (`bb`, of the form `user@host:path`).

This project models the core of `cmd/gitmirror/main.go`:

- **Descriptors** (`Config`): the loop of `main` that turns mapping records
  into `repo` descriptors rooted at `<cacheDir>/<name>`.
- **Remote name and remote file** (`GoStrings`, `Remote`): Go's
  `strings.Split` with a one-character separator, the name derived from the
  destination by `addRemote` and `push`, and the text of the legacy
  `$GIT_DIR/remotes/<name>` file.
- **Sync procedure** (`Sync`): the worker body of `initRepos` for one
  repository: the FETCH_HEAD reuse check driven by the `canReuse` flag, the
  removal and re-clone, the refresh fetch, and, when mirroring, `addRemote`
  and `push`. `fetch` keeps its error-return contract. `clone` returns
  nothing and only logs, so it appears as a recorded `Clone` action inside
  `SyncRepo`.
- **Dispatcher** (`Dispatch`): `initRepos` handing every descriptor, in
  order, to the sync procedure. `initRepos` returns right after the last
  hand-off and `main` right after it, without waiting for the workers, so
  each repository performs only a prefix of its actions. Its length, the
  repository's cut, is given as input. The complete run, in which the
  program waits, is modelled beside it; see Findings.

The outside world is an oracle. For each repository an `Outcomes` record says:
- whether `os.Stat` of `FETCH_HEAD` succeeds;
- how each `git` subprocess ended (`Completed`, `StartFailed` or `WaitFailed`);
- whether `os.MkdirAll` of `<root>/remotes` succeeds.

Every call the program makes is recorded as an `Action`, in order.

The functions `Sync.Plan` and `Dispatch.RunPlan` specify the trace of one
repository and of a whole run. The imperative methods `Sync.SyncRepo` and
`Dispatch.InitRepos` follow the Go control flow step by step and are proved
to produce exactly those traces. The lemmas then state what the program
promises about the traces.

A destination without `@` makes `nameAt[1]` index out of range. In Go that
panic happens inside a goroutine and kills the whole process. The model
handles it as follows:
- `Remote.RemoteName` returns `None` for such a destination;
- the trace ends with a `Panic` action;
- the dispatcher hands out no repository after it.

The code was followed over the documented intent in one place: the reuse check.
Its log message ("failed to resuse repo") suggests that a failing probe fetch
demotes the cache. The code tests the stale `os.Stat` error instead, so it
never does. The model does what the code does; see Findings.

## Model

| member | source | states |
|---|---|---|
| GoStrings.Split | cmd/gitmirror/main.go:202-203 | `strings.Split` with a one-character separator gives exactly one field more than there are separators, and no field contains the separator |
| GoStrings.JoinSplit | cmd/gitmirror/main.go:202 | joining the fields of a split with the separator gives back the original string |
| GoStrings.SplitJoin | cmd/gitmirror/main.go:202 | splitting a join of separator-free fields gives back those fields |
| GoStrings.FirstField | cmd/gitmirror/main.go:203 | field 0 of a split is the text before the first separator, or the whole string |
| GoStrings.SecondField | cmd/gitmirror/main.go:202-203 | a split has a field 1 when the separator occurs, and field 1 is the text after the first separator up to the next one |
| GoStrings.TakeUntilTwice | cmd/gitmirror/main.go:203 | cutting at `@` and then at `:` is the same as cutting at the first of either |
| Paths.JoinParts | cmd/gitmirror/main.go:82 | a joined path is the directory, the separator and the name, in that order |
| Paths.JoinInjective | cmd/gitmirror/main.go:82 | inside one directory, two joined paths are equal exactly when the names are |
| Remote.RemoteName | cmd/gitmirror/main.go:202-203 | the name exists exactly when the destination holds an `@` (otherwise the program panics), and it contains neither `@` nor `:` |
| Remote.RemoteNameIsHost | cmd/gitmirror/main.go:202-203 | the name is the text after the first `@`, up to the next `@` or `:` or the end |
| Remote.RemoteNameOfScpStyle | cmd/gitmirror/main.go:233-234 | for a destination `user@host:path` whose user has no `@` and whose host has no `@` or `:`, the name is the host |
| Remote.ExampleRemoteName | cmd/gitmirror/main.go:202-203 | the destination `git@bb:org/a` gives the remote name `bb` |
| Remote.FixedPartsAreLines | cmd/gitmirror/main.go:198-200 | the URL prefix and the two push refspecs are single lines |
| Remote.RemoteContentLines | cmd/gitmirror/main.go:196-200 | the remote file, split at newlines, is the `URL:` line of the destination, the push line for `refs/heads/*`, the push line for `refs/tags/*`, and nothing after the final newline |
| Config.BuildRepos | cmd/gitmirror/main.go:78-88 | one descriptor per mapping record, in order; descriptor i has the record's name, source and destination, and the root `<cacheDir>/<name>` |
| Config.RootsDistinctIffNamesDistinct | cmd/gitmirror/main.go:80-88 | for a clean cache directory and plain record names, no two repositories share a cache directory exactly when no two records share a name; nothing in the program checks this |
| Config.RootsUnderCacheDir | cmd/gitmirror/main.go:82 | for a clean cache directory and plain record names, every root is one plain component below the cache directory and never the cache directory itself |
| Sync.FetchRepo | cmd/gitmirror/main.go:208-227 | `fetch` records one fetch in the repository's root and reports an error exactly when the subprocess failed to start or to finish |
| Sync.AddRemote | cmd/gitmirror/main.go:191-206 | `addRemote` creates `<root>/remotes` and stops silently when that fails. Otherwise it writes the remote content to `<root>/remotes/<name>`, or panics when the destination has no `@` |
| Sync.PushRepo | cmd/gitmirror/main.go:229-247 | `push` panics exactly when the destination has no `@`, and otherwise pushes from the root to the remote named by `RemoteName`, whatever the push returns |
| Sync.SyncRepo | cmd/gitmirror/main.go:134-164 | the worker body with its `canReuse` flag performs exactly the actions of `Plan` and panics exactly when mirroring is on and the destination has no `@` |
| Sync.PlanShape | cmd/gitmirror/main.go:137-163 | the sequence of action kinds. A missing FETCH_HEAD gives Stat, RemoveAll, Clone, Fetch; a present one gives Stat, Fetch, Fetch. Only when mirroring follow the remotes directory, the file if the directory was made, and the push, or a panic without `@` |
| Sync.FailuresDoNotSteer | cmd/gitmirror/main.go:134-164 | the results of the fetches, the clone and the push never change which kinds of action follow; only FETCH_HEAD and the remotes directory do |
| Sync.ProbeResultIgnored | cmd/gitmirror/main.go:143-150 | with FETCH_HEAD present, no RemoveAll or Clone ever happens, and changing the probe fetch's result changes nothing after it |
| Sync.OneRefreshAfterDecision | cmd/gitmirror/main.go:152-158 | exactly one fetch follows the reuse decision on every path, at position 2 or 3 and carrying the refresh's own result; nothing after it fetches, clones or removes |
| Sync.MirrorOffStaysLocal | cmd/gitmirror/main.go:160-163 | with mirroring off there is no remotes directory, no remote file, no push and no panic |
| Sync.RegistrationMatchesPush | cmd/gitmirror/main.go:202-205 | the remote file's path is `<root>/remotes/<push target>`, the push target is the name derived from the destination, the push runs in the root, and the file holds the destination's remote content |
| Sync.WriteNeedsRemotesDir | cmd/gitmirror/main.go:192-205 | a remote file is written exactly when mirroring is on, the remotes directory was made and the destination has an `@`, and always right after that directory was made |
| Sync.FreshCacheRun | cmd/gitmirror/main.go:134-164 | an empty cache with mirroring on and every call succeeding, for `user@host:path`, gives exactly Stat, RemoveAll, Clone, Fetch, MkdirAll, WriteFile `<root>/remotes/<host>`, Push to `host` |
| Sync.IntendedRefresh | cmd/gitmirror/main.go:143-150 | the reuse check with the probe's own error tested: it clones exactly when FETCH_HEAD is missing or the probe failed, it ends with the refresh fetch, and it agrees with the code whenever the probe succeeds or is not made |
| Dispatch.Processed | cmd/gitmirror/main.go:168-172 | a run gets to every repository, or to those up to and including the first that panics |
| Dispatch.RunIsFlatten | cmd/gitmirror/main.go:168-172 | a run is the concatenated traces of the repositories it gets to, in order |
| Dispatch.Prefix | cmd/gitmirror/main.go:95-99 | what a repository gets through is a prefix of its plan, and all of it exactly when its cut reaches the plan's length |
| Dispatch.RunIsPlansInOrder | cmd/gitmirror/main.go:168-172 | each repository is handed out once, in mapping-file order, and performs a prefix of its own plan; the run stops at the first repository that reaches its panic, or after the last, and none before that one panics |
| Dispatch.CompleteRunInOrder | cmd/gitmirror/main.go:168-172 | in the complete run, in which the program waits for its workers, each repository runs its whole plan, in order, up to the first that panics or to the last |
| Dispatch.UncutRunIsComplete | cmd/gitmirror/main.go:168-172 | when no repository is cut short, the run is the complete run |
| Dispatch.ExitCutsLastRepository | cmd/gitmirror/main.go:95-99 | a single repository whose worker has not started when `main` returns performs nothing, while the complete run performs its whole non-empty plan |
| Dispatch.MirrorOffProcessesAll | cmd/gitmirror/main.go:160-172 | with mirroring off every repository is handed out and performs a prefix of its plan; in the complete run each performs all of it |
| Dispatch.MirrorOffNeverPublishes | cmd/gitmirror/main.go:160-172 | with mirroring off no repository of the run registers a remote, pushes or panics, however far each one gets |
| Dispatch.InitRepos | cmd/gitmirror/main.go:128-173 | the dispatcher's loop produces exactly the run's trace for the given cuts, and the program crashes exactly when some repository gets as far as its panic |

## Left out

- Subprocesses: `exec.CommandContext`, `Start`/`Wait`, the 30-second timeouts and their cancellation are not modelled. Each `git` call's outcome is an `ExecResult` given by the oracle. Git's own effects are outside the model. For example, a successful fetch writes FETCH_HEAD, which decides what the next run does.
- Concurrency: the five goroutines and the unbuffered channel are a sequential loop, and each repository's actions appear together in the trace. In the program the actions of different workers interleave, and so do their log lines.
- Dispatch.InitRepos: each repository's cut is a free input. In the program, at most five repositories (one per worker) are in flight when it ends. Repositories handed out after a panicking one but before the panic happens also run part of their plans. The model lets any repository be cut and hands out nothing after a reached panic. Every property proved holds for any choice of cuts.
- Filesystem calls: `os.Stat`, `os.RemoveAll`, `os.MkdirAll` and `ioutil.WriteFile` are recorded actions whose results come from the oracle. Any `os.Stat` error counts as "FETCH_HEAD missing", as in the code. The errors of `RemoveAll` and `WriteFile` are ignored by the code, and the model does not record them. File modes (0777) are not modelled.
- `createCacheDir`, reading the mapping file, YAML decoding, flag parsing and `log.Fatalf`: these are I/O and library plumbing. The cache directory, the mapping records and the mirror flag are parameters.
- Logging: every `log.Printf` is left out.
- Paths.Join: it models `filepath.Join` of two components as plain concatenation with `/`. This is what Go computes for a `CleanDir` directory and a `PlainName` element. Go's lexical cleaning of other inputs is not modelled. For example, `filepath.Join` maps `a/` to the same root as `a`, and an empty name to the cache directory itself.
- Config.RootsDistinctIffNamesDistinct: it is stated only for a clean cache directory and plain names, because it fails for the program otherwise. The names `a` and `a/` (or `./a`) differ but give the same root.
- Config.RootsUnderCacheDir: it is stated only for a clean cache directory and plain names, because it fails for the program otherwise. An empty name gives the cache directory itself as the root, and `os.RemoveAll` of the root would then delete the whole cache. A name `../x` gives a root outside the cache directory. The program does not check record names.
- GoStrings.Split: only one-character separators are modelled, which are the only ones the program uses.

## Findings

| source | as written | input that shows it | evidently intended | confidence | as-written member | corrected member |
|---|---|---|---|---|---|---|
| cmd/gitmirror/main.go:168-172 | after the last hand-off `initRepos` closes the channel and returns, and `main` returns at once, without waiting for the workers, so the process ends with repositories in flight | one mapping record: the worker has normally not finished the clone when `main` returns, and the repository is left half mirrored | wait for every worker (for example with a `sync.WaitGroup`) before returning, so that each repository is mirrored completely | high; not executed | Dispatch.ExitCutsLastRepository | Dispatch.CompleteRunInOrder |
| cmd/gitmirror/main.go:145-146 | the result of the probe `fetch(r)` is discarded, and `if err != nil` tests the `os.Stat` error, which is nil on this branch | FETCH_HEAD present and the probe fetch fails (for example a corrupt cache, or an unreachable origin) | a failing probe demotes the cache, which is then removed and cloned again, as the log message "failed to resuse repo" says | high; not executed | Sync.ProbeResultIgnored | Sync.IntendedRefresh |

The rest of the model keeps the behaviour as written, because it describes
what the program does:
- `Sync.Decision` keeps the reuse check as written. `Sync.IntendedRefresh`
  differs from it only when FETCH_HEAD is present and the probe fails.
- `Dispatch.RunPlan` and `Dispatch.InitRepos` keep the early exit.
  `Dispatch.CompleteRun` is the run they give when no repository is cut
  short (`Dispatch.UncutRunIsComplete`).
