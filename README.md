# nmc: a cache for `node_modules`, modelled in Dafny

`nmc` wraps `npm install`/`npm ci`. It caches the installed `node_modules`
tree as an archive in a shared cache directory. The archive is named by a
fingerprint of the project's manifests. A run first removes `node_modules`.
It then either unpacks `<hash>.txz` from the cache, or runs npm with the
caller's arguments and packs what npm installed into `<hash>.txz`. When
npm's output shows that the package ran its own postinstall script, the
run leaves an empty `<hash>.postinstall` marker. A later restore then
replays `npm run postinstall`. The command also has a help text, a
whole-cache purge (`--nmc-clean`) and a cache size report
(`--nmc-cache-size`). A global install (`-g`) bypasses the cache.

The model has four modules:

- `CacheDir` (`cache_dir.dfy`) covers the cache directory as a map from
  file name to size. It holds the two naming functions, the
  size-above-10-bytes lookup test, and `Total`, a ghost sum of the file
  sizes that does not depend on visiting order.
- `OutputScan` (`output_scan.dfy`) covers postinstall detection, a literal
  substring match as JavaScript's `includes`.
- `Nmc` (`nmc.dfy`) holds the class `Nmc`, whose fields the command
  changes in place: `cache`, `nodeModules`, and `trace`, the list of
  external actions performed. `Clean` empties the cache, `CacheSize` (the
  summing loop) returns `Total(cache)`, and `Lookup` decides the size test.
  `Run` and `Dispatch` are tied by their `ensures` to the reference
  functions `RunSpec` and `DispatchSpec` over a `State` value; `Run`'s exit
  code is tied to the reference function `ExitCode`.
- `NmcProperties` (`nmc_properties.dfy`) proves about those reference
  functions what the command promises. This includes sequences of two
  runs.

The unseen collaborators are passed in as values, bundled in `Io`:

- the fingerprint (`None` when it cannot be computed);
- npm's result for each argument list, as an oracle
  `seq<string> -> SpawnResult`;
- the size of the archive the packer writes.

The npm executable's name is a constructor parameter of the class.

Three details of `bin/nmc.js` that the model follows:

- An unpack failure does not fall back to a fresh install: line 89 calls
  `unpack` with no error handling.
- Every spawn passes `exceptionIfErrorCode: true`. A nonzero npm exit
  therefore rejects the awaited promise. The `unhandledRejection` handler
  (lines 20-23) then exits with 1. So the exit code is 0 or 1, never npm's
  own nonzero code. `process.exit(res.code)` on line 73 is reached only
  with `res.code == 0`.
- Line 122 opens the flag with the `'w'` flag, so a flag that already
  exists is truncated to size 0 rather than left as it was.

## Model

| member | source | states |
|---|---|---|
| CacheDir.ArchiveNameInjective | bin/nmc.js:81 | two different fingerprints never name the same archive file |
| CacheDir.FlagNameInjective | bin/nmc.js:82 | two different fingerprints never name the same postinstall flag file |
| CacheDir.ArchiveIsNotFlag | bin/nmc.js:81-82 | no archive name is ever the flag name of any fingerprint |
| CacheDir.TotalRemove | bin/nmc.js:47-53 | the summed cache size does not depend on the order the directory lists its files: any file may be counted first |
| CacheDir.TotalInsert | bin/nmc.js:47-53 | adding a new file to the cache adds exactly its size to the total |
| CacheDir.TotalReplace | bin/nmc.js:47-53 | overwriting a file changes the total by the difference between the new and old sizes |
| CacheDir.TwoMebibytes | bin/nmc.js:45-56 | two files of 1048576 bytes make a total of 2097152 bytes |
| OutputScan.ContainsInfix | bin/nmc.js:120 | a marker anywhere in npm's output is found |
| OutputScan.ContainsExtend | bin/nmc.js:120 | a found marker stays found when more output surrounds it |
| OutputScan.ShortTextMisses | bin/nmc.js:120 | output shorter than the marker never sets the flag |
| OutputScan.MarkerLineDetected | bin/nmc.js:120-123 | npm's line `> my-pkg@1.0.0 postinstall` is detected for the package `my-pkg@1.0.0` |
| Nmc.Nmc.Clean | bin/nmc.js:39-43 | the cache directory is emptied; `node_modules` is unchanged |
| Nmc.Nmc.CacheSize | bin/nmc.js:45-56 | the loop over the directory listing returns the sum of the sizes of every cache file and changes nothing |
| Nmc.Nmc.Lookup | bin/nmc.js:84-87 | a hit exactly when `<hash>.txz` exists and its size is greater than 10 |
| Nmc.Nmc.SpawnNpm | bin/nmc.js:113-118 | npm runs once with the given arguments and its result is the oracle's; only the trace grows |
| Nmc.Nmc.Run | bin/nmc.js:62-131 | the new cache, `node_modules` presence, trace and outcome are those of the reference definition `RunSpec` |
| Nmc.Nmc.Dispatch | bin/nmc.js:35-56 | the new state and outcome are those of `DispatchSpec`: help, clean, size report, or `run()` |
| NmcProperties.RunExtendsTrace | bin/nmc.js:62-131 | a run only appends actions; none already done is undone |
| NmcProperties.HelpTouchesNothing | bin/nmc.js:25-37 | empty arguments, `--help` or `-h` show help, change nothing and exit 0 |
| NmcProperties.CleanEmptiesCache | bin/nmc.js:39-43 | `--nmc-clean` leaves the cache empty, keeps `node_modules`, exits 0 |
| NmcProperties.CacheSizeReportsTotal | bin/nmc.js:45-56 | `--nmc-cache-size` reports the sum of all cache file sizes, changes nothing, exits 0 |
| NmcProperties.DispatchRuns | bin/nmc.js:35-62 | any other argument list runs the install protocol; help and the maintenance commands take precedence over `-g` |
| NmcProperties.GlobalBypassesCache | bin/nmc.js:64-74 | with `-g`, npm is spawned exactly once with the caller's arguments; the cache and `node_modules` are untouched; exit 0 on success, 1 on failure |
| NmcProperties.ExitCodeIffRejected | bin/nmc.js:20-23 | a run exits with 1 exactly when the fingerprint cannot be computed or a spawned npm process (install, global install or postinstall replay, each with `exceptionIfErrorCode`) exits nonzero; otherwise it exits with 0 |
| NmcProperties.RemovesNodeModulesFirst | bin/nmc.js:76-78 | a non-global run removes `node_modules` before any lookup, restore or install |
| NmcProperties.FingerprintFailureStops | bin/nmc.js:80 | when the fingerprint cannot be computed, the run ends with exit 1 after removing `node_modules`, with the cache unchanged |
| NmcProperties.HitIffLargeArchive | bin/nmc.js:84-107 | the archive is unpacked exactly when it exists and is larger than 10 bytes; npm's install runs exactly when it is not unpacked |
| NmcProperties.HitRestores | bin/nmc.js:88-103 | on a hit: unpack, then `npm run postinstall` exactly when the flag exists, never the install; the cache is unchanged; exit 0 unless the replay fails |
| NmcProperties.MissFailureWritesNothing | bin/nmc.js:113-118 | on a miss a failing npm ends the run with exit 1, with no archive and no flag written |
| NmcProperties.MissStoresArchive | bin/nmc.js:113-127 | on a successful miss the archive is written; afterwards the flag exists exactly when it existed or the output names `<name@version> postinstall`; every other entry is unchanged |
| NmcProperties.RunNeverDeletesEntries | bin/nmc.js:62-131 | no run removes a cache file; the only files a run creates or changes are its own fingerprint's archive and flag |
| NmcProperties.OtherFingerprintsUntouched | bin/nmc.js:81-82 | a run leaves the archive, flag and hit status of every other fingerprint unchanged |
| NmcProperties.RunTotalBound | bin/nmc.js:120-127 | a run grows the cache's total size by at most the size of the archive it packs |
| NmcProperties.InstallThenRestore | bin/nmc.js:84-127 | after a successful miss that packed more than 10 bytes, the same run again restores without installing, and replays postinstall exactly when it was detected or already flagged (the replay's success is needed only when a replay happens) |
| NmcProperties.TruncatedArchiveReinstalls | bin/nmc.js:86-87 | an archive of 10 bytes or fewer is never restored: the next run installs again and, with npm answering as before, packs again |
| NmcProperties.CleanThenMiss | bin/nmc.js:39-43 | after `--nmc-clean`, the next run with a fingerprint misses and installs |

## Left out

- Fingerprint computation (`lib/calc-hash`) is not part of this model. Its result, or its failure, is an input.
- Archive packing and unpacking (`lib/tar-utils`) are not part of this model. `pack` and `unpack` are recorded actions. `pack` writes an archive of a given size and `unpack` makes `node_modules` present. Atomic rename, permissions, and any asynchronous completion of these calls are not modelled. A failing `unpack` or `pack` is not modelled either.
- Process spawning (`lib/spawn-utils`) is not part of this model. npm is an oracle from argument lists to exit code and output. Output streaming and waiting are not modelled.
- Run: npm's effect on `node_modules` is modelled only as "present after a successful install". A failed install leaves it absent in the model, whatever partial tree npm may leave behind.
- Run: the working directory of each spawn is not recorded. The postinstall replay (lines 94-98) passes no `cwd` and so inherits the process's directory.
- Run: the rejection of `calcHash` is modelled as a missing fingerprint that exits with 1. The reason for the failure is not modelled.
- CacheSize: reports bytes as an unbounded integer. The conversion to megabytes and the two-decimal formatting (line 54) use floating point and are left out.
- Clean: a removed cache directory is modelled as an empty one. A `--nmc-cache-size` on a missing directory, where `readdirSync` throws, is not modelled. Whether `lib/common` recreates the directory is not visible.
- Logging, the help text, `console.time`/`timeEnd`, and the `NPM_ORIG` lookup (line 18) are left out. The npm command name is a parameter instead.
- Concurrent runs racing on the shared cache directory are out of scope: the model runs one invocation at a time.
