/** The `nmc` command: dispatch on the argument list, and the cache protocol
    of `run()` that either restores `node_modules` from an archive keyed by the
    project's fingerprint or runs npm and archives what it installed. */
module Nmc {
  import opened CacheDir
  import opened OutputScan

  datatype Option<T> = None | Some(value: T)

  /** What the fingerprint computation gives: the cache key and the package's `name@version`. */
  datatype Fingerprint = Fingerprint(hash: string, nameAndVersion: string)

  /** What a finished npm process reports: its exit code and its captured output. */
  datatype SpawnResult = SpawnResult(code: int, out: string)

  /** The collaborators whose code is not part of this model, as the values they produce:
      the fingerprint (None when it cannot be computed), npm's result for each argument
      list, and the size of the archive the packer writes. */
  datatype Io = Io(
    fingerprint: Option<Fingerprint>,
    npmResult: seq<string> -> SpawnResult,
    packedSize: nat)

  /** External actions, in the order they happen. */
  datatype Action =
    | RemoveCache
    | RemoveNodeModules
    | Spawn(command: string, args: seq<string>)
    | Unpack(archive: string)
    | Pack(archive: string)

  /** The step at which a run gave up. */
  datatype Stage = GlobalInstall | Fingerprinting | Postinstall | Install

  datatype Outcome =
    | ShowedHelp
    | CacheCleaned
    | SizeReported(bytes: nat)
    | GlobalInstalled
    | Restored(replayedPostinstall: bool)
    | Installed(flagged: bool)
    | Failed(stage: Stage)

  /** Everything a run can change: the cache directory, whether `node_modules` exists,
      and the actions performed so far. */
  datatype State = State(cache: map<string, nat>, nodeModules: bool, trace: seq<Action>)

  /** Reference definition of the process's exit code. A failed step rejects the awaited
      promise and the rejection handler exits with 1; every other branch exits with 0. */
  function ExitCode(o: Outcome): int {
    if o.Failed? then 1 else 0
  }

  const PostinstallArgs: seq<string> := ["run", "postinstall"]

  predicate IsHelp(args: seq<string>) {
    |args| == 0 || args[0] == "--help" || args[0] == "-h"
  }

  predicate IsGlobal(args: seq<string>) {
    "-g" in args
  }

  /** The actions a run added to the state's trace. */
  function NewActions(before: State, after: State): seq<Action>
    requires before.trace <= after.trace
  {
    after.trace[|before.trace|..]
  }

  /** Reference definition of `run()`, started from state `s`. */
  ghost function RunSpec(s: State, npm: string, args: seq<string>, io: Io): (Outcome, State) {
    if IsGlobal(args) then
      var res := io.npmResult(args);
      var s1 := s.(trace := s.trace + [Spawn(npm, args)]);
      (if res.code == 0 then GlobalInstalled else Failed(GlobalInstall), s1)
    else
      var s1 := s.(nodeModules := false, trace := s.trace + [RemoveNodeModules]);
      match io.fingerprint
      case None => (Failed(Fingerprinting), s1)
      case Some(fp) =>
        if IsHit(s1.cache, fp.hash) then RestoreSpec(s1, npm, fp.hash, io)
        else InstallSpec(s1, npm, args, fp, io)
  }

  /** The hit path: unpack the archive, then replay postinstall when the flag exists. */
  ghost function RestoreSpec(s: State, npm: string, hash: string, io: Io): (Outcome, State) {
    var s1 := s.(nodeModules := true, trace := s.trace + [Unpack(ArchiveName(hash))]);
    if FlagName(hash) in s1.cache then
      var res := io.npmResult(PostinstallArgs);
      var s2 := s1.(trace := s1.trace + [Spawn(npm, PostinstallArgs)]);
      (if res.code == 0 then Restored(true) else Failed(Postinstall), s2)
    else
      (Restored(false), s1)
  }

  /** The miss path: run npm, record the flag when its output shows a postinstall, pack. */
  ghost function InstallSpec(s: State, npm: string, args: seq<string>, fp: Fingerprint, io: Io): (Outcome, State) {
    var res := io.npmResult(args);
    var s1 := s.(trace := s.trace + [Spawn(npm, args)]);
    if res.code != 0 then (Failed(Install), s1)
    else
      var flagged := DeclaresPostinstall(res.out, fp.nameAndVersion);
      var withFlag := if flagged then s1.cache[FlagName(fp.hash) := 0] else s1.cache;
      (Installed(flagged),
       State(withFlag[ArchiveName(fp.hash) := io.packedSize], true, s1.trace + [Pack(ArchiveName(fp.hash))]))
  }

  /** Reference definition of the whole command, from state `s`. */
  ghost function DispatchSpec(s: State, npm: string, args: seq<string>, io: Io): (Outcome, State) {
    if IsHelp(args) then (ShowedHelp, s)
    else if args[0] == "--nmc-clean" then (CacheCleaned, s.(cache := map[], trace := s.trace + [RemoveCache]))
    else if args[0] == "--nmc-cache-size" then (SizeReported(Total(s.cache)), s)
    else RunSpec(s, npm, args, io)
  }

  /** One invocation of the tool over a cache directory and a project directory. */
  class Nmc {
    /** The npm executable's name. */
    const npm: string
    var cache: map<string, nat>
    var nodeModules: bool
    var trace: seq<Action>

    constructor (npm: string, cache: map<string, nat>, nodeModules: bool)
      ensures this.npm == npm && this.cache == cache && this.nodeModules == nodeModules
      ensures trace == []
    {
      this.npm := npm;
      this.cache := cache;
      this.nodeModules := nodeModules;
      this.trace := [];
    }

    function Snapshot(): State
      reads this
    {
      State(cache, nodeModules, trace)
    }

    /** `rimraf.sync(cacheDir)`. */
    method Clean()
      modifies this
      ensures cache == map[] && nodeModules == old(nodeModules)
      ensures trace == old(trace) + [RemoveCache]
    {
      cache := map[];
      trace := trace + [RemoveCache];
    }

    /** The size-summing loop over the directory listing. */
    method CacheSize() returns (size: nat)
      ensures size == Total(cache)
    {
      size := 0;
      var files := cache.Keys;
      assert cache - (cache.Keys - files) == cache;
      while files != {}
        invariant files <= cache.Keys
        invariant size + Total(cache - (cache.Keys - files)) == Total(cache)
        decreases files
      {
        var file :| file in files;
        var pending := cache - (cache.Keys - files);
        TotalRemove(pending, file);
        assert pending - {file} == cache - (cache.Keys - (files - {file}));
        size := size + cache[file];
        files := files - {file};
      }
      assert cache - (cache.Keys - {}) == map[];
    }

    /** Whether the archive for `hash` exists and is larger than the threshold. */
    method Lookup(hash: string) returns (hit: bool)
      ensures hit == IsHit(cache, hash)
    {
      var txz := ArchiveName(hash);
      hit := false;
      if txz in cache {
        var size := cache[txz];
        if size > MinArchiveSize {
          hit := true;
        }
      }
    }

    /** Start npm with `args` and wait for it. */
    method SpawnNpm(args: seq<string>, io: Io) returns (res: SpawnResult)
      modifies this
      ensures res == io.npmResult(args)
      ensures cache == old(cache) && nodeModules == old(nodeModules)
      ensures trace == old(trace) + [Spawn(npm, args)]
    {
      res := io.npmResult(args);
      trace := trace + [Spawn(npm, args)];
    }

    /** `run()`. */
    method Run(args: seq<string>, io: Io) returns (outcome: Outcome, exit: int)
      modifies this
      ensures (outcome, Snapshot()) == RunSpec(old(Snapshot()), npm, args, io)
      ensures exit == ExitCode(outcome)
    {
      if IsGlobal(args) {
        var res := SpawnNpm(args, io);
        if res.code != 0 {
          outcome, exit := Failed(GlobalInstall), 1;
          return;
        }
        outcome, exit := GlobalInstalled, res.code;
        return;
      }

      nodeModules := false;
      trace := trace + [RemoveNodeModules];

      if io.fingerprint.None? {
        outcome, exit := Failed(Fingerprinting), 1;
        return;
      }
      var hash := io.fingerprint.value.hash;
      var nameAndVersion := io.fingerprint.value.nameAndVersion;
      var txzPath := ArchiveName(hash);
      var postinstallFlagPath := FlagName(hash);

      var hit := Lookup(hash);
      if hit {
        nodeModules := true;
        trace := trace + [Unpack(txzPath)];
        if postinstallFlagPath in cache {
          var res := SpawnNpm(PostinstallArgs, io);
          if res.code != 0 {
            outcome, exit := Failed(Postinstall), 1;
            return;
          }
          outcome := Restored(true);
        } else {
          outcome := Restored(false);
        }
        exit := 0;
        return;
      }

      var res := SpawnNpm(args, io);
      if res.code != 0 {
        outcome, exit := Failed(Install), 1;
        return;
      }
      nodeModules := true;
      var flagged := Contains(res.out, PostinstallMarker(nameAndVersion));
      if flagged {
        cache := cache[postinstallFlagPath := 0];
      }
      cache := cache[txzPath := io.packedSize];
      trace := trace + [Pack(txzPath)];
      outcome, exit := Installed(flagged), 0;
    }

    /** The top-level script: help, the two maintenance commands, or `run()`. */
    method Dispatch(args: seq<string>, io: Io) returns (outcome: Outcome, exit: int)
      modifies this
      ensures (outcome, Snapshot()) == DispatchSpec(old(Snapshot()), npm, args, io)
      ensures exit == ExitCode(outcome)
    {
      if IsHelp(args) {
        outcome, exit := ShowedHelp, 0;
        return;
      }
      if args[0] == "--nmc-clean" {
        Clean();
        outcome, exit := CacheCleaned, 0;
        return;
      }
      if args[0] == "--nmc-cache-size" {
        var size := CacheSize();
        outcome, exit := SizeReported(size), 0;
        return;
      }
      outcome, exit := Run(args, io);
    }
  }
}
