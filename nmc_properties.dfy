/** What the command promises, proved about its reference definitions. */
module NmcProperties {
  import opened CacheDir
  import opened OutputScan
  import opened Nmc

  /** The run gets as far as the lookup: it is not global and its fingerprint was computed. */
  predicate CacheProtocolRun(args: seq<string>, io: Io) {
    !IsGlobal(args) && io.fingerprint.Some?
  }

  /** Every run only appends to the trace. */
  lemma RunExtendsTrace(s: State, npm: string, args: seq<string>, io: Io)
    ensures s.trace <= RunSpec(s, npm, args, io).1.trace
  {
  }

  // ---- dispatch ------------------------------------------------------------

  /** Help touches nothing and exits with 0. */
  lemma HelpTouchesNothing(s: State, npm: string, args: seq<string>, io: Io)
    requires IsHelp(args)
    ensures DispatchSpec(s, npm, args, io) == (ShowedHelp, s)
    ensures ExitCode(DispatchSpec(s, npm, args, io).0) == 0
  {
  }

  /** `--nmc-clean` empties the cache, leaves `node_modules` alone and exits with 0. */
  lemma CleanEmptiesCache(s: State, npm: string, args: seq<string>, io: Io)
    requires |args| > 0 && args[0] == "--nmc-clean"
    ensures var (o, t) := DispatchSpec(s, npm, args, io);
      o == CacheCleaned && t.cache == map[] && t.nodeModules == s.nodeModules
      && t.trace == s.trace + [RemoveCache] && ExitCode(o) == 0
  {
  }

  /** `--nmc-cache-size` reports the sum of the sizes and changes nothing. */
  lemma CacheSizeReportsTotal(s: State, npm: string, args: seq<string>, io: Io)
    requires |args| > 0 && args[0] == "--nmc-cache-size"
    ensures DispatchSpec(s, npm, args, io) == (SizeReported(Total(s.cache)), s)
    ensures ExitCode(DispatchSpec(s, npm, args, io).0) == 0
  {
  }

  /** Any other argument list is a `run()`; help and the maintenance commands win over `-g`. */
  lemma DispatchRuns(s: State, npm: string, args: seq<string>, io: Io)
    requires !IsHelp(args) && args[0] != "--nmc-clean" && args[0] != "--nmc-cache-size"
    ensures DispatchSpec(s, npm, args, io) == RunSpec(s, npm, args, io)
  {
  }

  // ---- run(): global bypass ------------------------------------------------

  /** A global install spawns npm once with the caller's arguments and nothing else:
      the cache and `node_modules` are untouched, and the exit code is npm's when it
      succeeds, 1 when it fails. */
  lemma GlobalBypassesCache(s: State, npm: string, args: seq<string>, io: Io)
    requires IsGlobal(args)
    ensures var (o, t) := RunSpec(s, npm, args, io);
      && t.cache == s.cache && t.nodeModules == s.nodeModules
      && t.trace == s.trace + [Spawn(npm, args)]
      && (io.npmResult(args).code == 0 ==> o == GlobalInstalled && ExitCode(o) == io.npmResult(args).code)
      && (io.npmResult(args).code != 0 ==> o == Failed(GlobalInstall) && ExitCode(o) == 1)
  {
  }

  /** A run exits with 1 exactly when an awaited step was rejected: the fingerprint could
      not be computed, or one of the npm processes it spawned exited with a nonzero code. */
  lemma ExitCodeIffRejected(s: State, npm: string, args: seq<string>, io: Io)
    ensures var (o, t) := RunSpec(s, npm, args, io);
      s.trace <= t.trace
      && (ExitCode(o) == 1 <==>
            (!IsGlobal(args) && io.fingerprint.None?)
            || (exists a :: a in NewActions(s, t) && a.Spawn? && io.npmResult(a.args).code != 0))
      && (ExitCode(o) == 0 || ExitCode(o) == 1)
  {
    var (o, t) := RunSpec(s, npm, args, io);
    if IsGlobal(args) {
      assert NewActions(s, t) == [Spawn(npm, args)];
    } else if io.fingerprint.None? {
      assert NewActions(s, t) == [RemoveNodeModules];
    } else {
      var fp := io.fingerprint.value;
      if IsHit(s.cache, fp.hash) {
        if FlagName(fp.hash) in s.cache {
          assert NewActions(s, t) == [RemoveNodeModules, Unpack(ArchiveName(fp.hash)), Spawn(npm, PostinstallArgs)];
        } else {
          assert NewActions(s, t) == [RemoveNodeModules, Unpack(ArchiveName(fp.hash))];
        }
      } else if io.npmResult(args).code != 0 {
        assert NewActions(s, t) == [RemoveNodeModules, Spawn(npm, args)];
      } else {
        assert NewActions(s, t) == [RemoveNodeModules, Spawn(npm, args), Pack(ArchiveName(fp.hash))];
      }
    }
  }

  // ---- run(): the cache protocol -------------------------------------------

  /** A non-global run removes `node_modules` before anything else it does. */
  lemma RemovesNodeModulesFirst(s: State, npm: string, args: seq<string>, io: Io)
    requires !IsGlobal(args)
    ensures var t := RunSpec(s, npm, args, io).1;
      s.trace <= t.trace && |t.trace| > |s.trace| && t.trace[|s.trace|] == RemoveNodeModules
  {
  }

  /** Without a fingerprint the run stops after removing `node_modules` and exits with 1. */
  lemma FingerprintFailureStops(s: State, npm: string, args: seq<string>, io: Io)
    requires !IsGlobal(args) && io.fingerprint.None?
    ensures var (o, t) := RunSpec(s, npm, args, io);
      o == Failed(Fingerprinting) && ExitCode(o) == 1 && t.cache == s.cache && !t.nodeModules
      && t.trace == s.trace + [RemoveNodeModules]
  {
  }

  /** The archive is unpacked exactly when it exists and is larger than the threshold;
      the install command runs exactly when the archive is not unpacked. */
  lemma HitIffLargeArchive(s: State, npm: string, args: seq<string>, io: Io)
    requires CacheProtocolRun(args, io)
    ensures var t := RunSpec(s, npm, args, io).1;
      var h := io.fingerprint.value.hash;
      s.trace <= t.trace
      && (Unpack(ArchiveName(h)) in NewActions(s, t) <==> ArchiveName(h) in s.cache && s.cache[ArchiveName(h)] > MinArchiveSize)
      && (Unpack(ArchiveName(h)) !in NewActions(s, t) <==> NewActions(s, t)[1..2] == [Spawn(npm, args)])
  {
    var t := RunSpec(s, npm, args, io).1;
    var h := io.fingerprint.value.hash;
    if IsHit(s.cache, h) {
      assert NewActions(s, t)[1] == Unpack(ArchiveName(h));
    } else {
      assert NewActions(s, t)[1] == Spawn(npm, args);
    }
  }

  /** On a hit the archive is restored, postinstall is replayed exactly when its flag
      exists, npm's install is never run, and the cache is not changed. */
  lemma HitRestores(s: State, npm: string, args: seq<string>, io: Io)
    requires CacheProtocolRun(args, io) && IsHit(s.cache, io.fingerprint.value.hash)
    ensures var (o, t) := RunSpec(s, npm, args, io);
      var h := io.fingerprint.value.hash;
      var flag := FlagName(h) in s.cache;
      && t.cache == s.cache && t.nodeModules
      && t.trace == s.trace + [RemoveNodeModules, Unpack(ArchiveName(h))]
                            + (if flag then [Spawn(npm, PostinstallArgs)] else [])
      && (!flag ==> o == Restored(false))
      && (flag && io.npmResult(PostinstallArgs).code == 0 ==> o == Restored(true))
      && (flag && io.npmResult(PostinstallArgs).code != 0 ==> o == Failed(Postinstall))
      && (ExitCode(o) == 0 <==> !flag || io.npmResult(PostinstallArgs).code == 0)
  {
  }

  /** On a miss npm runs with the caller's arguments; if it fails, nothing is written
      to the cache and the run exits with 1. */
  lemma MissFailureWritesNothing(s: State, npm: string, args: seq<string>, io: Io)
    requires CacheProtocolRun(args, io) && !IsHit(s.cache, io.fingerprint.value.hash)
    requires io.npmResult(args).code != 0
    ensures var (o, t) := RunSpec(s, npm, args, io);
      o == Failed(Install) && ExitCode(o) == 1 && t.cache == s.cache
      && t.trace == s.trace + [RemoveNodeModules, Spawn(npm, args)]
  {
  }

  /** On a successful miss the archive is written with the packer's size, the flag
      exists afterwards exactly when it existed or the output declares a postinstall
      (and is then empty), and every other cache entry is unchanged. */
  lemma MissStoresArchive(s: State, npm: string, args: seq<string>, io: Io)
    requires CacheProtocolRun(args, io) && !IsHit(s.cache, io.fingerprint.value.hash)
    requires io.npmResult(args).code == 0
    ensures var (o, t) := RunSpec(s, npm, args, io);
      var fp := io.fingerprint.value;
      var detected := DeclaresPostinstall(io.npmResult(args).out, fp.nameAndVersion);
      && o == Installed(detected) && ExitCode(o) == 0 && t.nodeModules
      && t.trace == s.trace + [RemoveNodeModules, Spawn(npm, args), Pack(ArchiveName(fp.hash))]
      && ArchiveName(fp.hash) in t.cache && t.cache[ArchiveName(fp.hash)] == io.packedSize
      && (FlagName(fp.hash) in t.cache <==> FlagName(fp.hash) in s.cache || detected)
      && (detected ==> t.cache[FlagName(fp.hash)] == 0)
      && (!detected && FlagName(fp.hash) in s.cache ==> t.cache[FlagName(fp.hash)] == s.cache[FlagName(fp.hash)])
      && (forall k :: k != ArchiveName(fp.hash) && k != FlagName(fp.hash) ==>
            (k in t.cache <==> k in s.cache) && (k in s.cache ==> t.cache[k] == s.cache[k]))
  {
  }

  // ---- invariants of every run ---------------------------------------------

  /** No run deletes a cache entry; only the two files named by the run's own
      fingerprint can change. */
  lemma RunNeverDeletesEntries(s: State, npm: string, args: seq<string>, io: Io)
    ensures var t := RunSpec(s, npm, args, io).1;
      && s.cache.Keys <= t.cache.Keys
      && (forall k :: k in t.cache && (k !in s.cache || t.cache[k] != s.cache[k]) ==>
            io.fingerprint.Some? && (k == ArchiveName(io.fingerprint.value.hash) || k == FlagName(io.fingerprint.value.hash)))
  {
  }

  /** The cache entry of another fingerprint, archive and flag, survives a run unchanged. */
  lemma OtherFingerprintsUntouched(s: State, npm: string, args: seq<string>, io: Io, other: string)
    requires io.fingerprint.Some? ==> other != io.fingerprint.value.hash
    ensures var t := RunSpec(s, npm, args, io).1;
      && (ArchiveName(other) in t.cache <==> ArchiveName(other) in s.cache)
      && (ArchiveName(other) in s.cache ==> t.cache[ArchiveName(other)] == s.cache[ArchiveName(other)])
      && (FlagName(other) in t.cache <==> FlagName(other) in s.cache)
      && (FlagName(other) in s.cache ==> t.cache[FlagName(other)] == s.cache[FlagName(other)])
      && (IsHit(t.cache, other) <==> IsHit(s.cache, other))
  {
    if io.fingerprint.Some? {
      var h := io.fingerprint.value.hash;
      if ArchiveName(other) == ArchiveName(h) { ArchiveNameInjective(other, h); }
      if FlagName(other) == FlagName(h) { FlagNameInjective(other, h); }
      ArchiveIsNotFlag(other, h);
      ArchiveIsNotFlag(h, other);
    }
  }

  /** A run adds to the cache's total size at most the packer's output. */
  lemma RunTotalBound(s: State, npm: string, args: seq<string>, io: Io)
    ensures Total(RunSpec(s, npm, args, io).1.cache) <= Total(s.cache) + io.packedSize
  {
    var t := RunSpec(s, npm, args, io).1;
    if CacheProtocolRun(args, io) && !IsHit(s.cache, io.fingerprint.value.hash) && io.npmResult(args).code == 0 {
      var fp := io.fingerprint.value;
      var detected := DeclaresPostinstall(io.npmResult(args).out, fp.nameAndVersion);
      var withFlag := if detected then s.cache[FlagName(fp.hash) := 0] else s.cache;
      if detected {
        if FlagName(fp.hash) in s.cache { TotalReplace(s.cache, FlagName(fp.hash), 0); }
        else { TotalInsert(s.cache, FlagName(fp.hash), 0); }
      }
      assert Total(withFlag) <= Total(s.cache);
      if ArchiveName(fp.hash) in withFlag { TotalReplace(withFlag, ArchiveName(fp.hash), io.packedSize); }
      else { TotalInsert(withFlag, ArchiveName(fp.hash), io.packedSize); }
      assert t.cache == withFlag[ArchiveName(fp.hash) := io.packedSize];
    }
  }

  // ---- two runs in a row ---------------------------------------------------

  /** Install, then repeat: after a successful miss that packed a real archive, the
      next run with the same fingerprint restores it without running npm's install,
      and replays postinstall exactly when the first run's output declared one or
      the flag was already there. */
  lemma InstallThenRestore(s: State, npm: string, args: seq<string>, io: Io)
    requires CacheProtocolRun(args, io) && !IsHit(s.cache, io.fingerprint.value.hash)
    requires io.npmResult(args).code == 0 && io.packedSize > MinArchiveSize
    requires FlagName(io.fingerprint.value.hash) in s.cache
             || DeclaresPostinstall(io.npmResult(args).out, io.fingerprint.value.nameAndVersion)
             ==> io.npmResult(PostinstallArgs).code == 0
    ensures var (o1, t1) := RunSpec(s, npm, args, io);
      var (o2, t2) := RunSpec(t1, npm, args, io);
      var fp := io.fingerprint.value;
      var replay := FlagName(fp.hash) in s.cache || DeclaresPostinstall(io.npmResult(args).out, fp.nameAndVersion);
      && o1 == Installed(DeclaresPostinstall(io.npmResult(args).out, fp.nameAndVersion))
      && o2 == Restored(replay)
      && t2.cache == t1.cache && t2.nodeModules
      && t2.trace == t1.trace + [RemoveNodeModules, Unpack(ArchiveName(fp.hash))]
                              + (if replay then [Spawn(npm, PostinstallArgs)] else [])
  {
  }

  /** An archive the packer left at or below the threshold is never restored: the
      next run installs again. npm is one oracle for both runs, so the second install
      succeeds like the first and is packed again. */
  lemma TruncatedArchiveReinstalls(s: State, npm: string, args: seq<string>, io: Io)
    requires CacheProtocolRun(args, io) && !IsHit(s.cache, io.fingerprint.value.hash)
    requires io.npmResult(args).code == 0 && io.packedSize <= MinArchiveSize
    ensures var t1 := RunSpec(s, npm, args, io).1;
      var t2 := RunSpec(t1, npm, args, io).1;
      t2.trace == t1.trace + [RemoveNodeModules, Spawn(npm, args), Pack(ArchiveName(io.fingerprint.value.hash))]
  {
  }

  /** After `--nmc-clean` every run with a fingerprint is a miss. */
  lemma CleanThenMiss(s: State, npm: string, clean: seq<string>, args: seq<string>, io: Io)
    requires |clean| > 0 && clean[0] == "--nmc-clean"
    requires CacheProtocolRun(args, io)
    ensures var t1 := DispatchSpec(s, npm, clean, io).1;
      var t2 := RunSpec(t1, npm, args, io).1;
      t2.trace[|t1.trace|..|t1.trace| + 2] == [RemoveNodeModules, Spawn(npm, args)]
  {
  }
}
