/** The cache directory: a flat directory of `<hash>.txz` archives and
    `<hash>.postinstall` flag files, seen as a map from file name to size. */
module CacheDir {

  /** An archive this small or smaller is a leftover of an interrupted write
      and does not count as a cache entry. */
  const MinArchiveSize: nat := 10

  const ArchiveSuffix: string := ".txz"
  const FlagSuffix: string := ".postinstall"

  /** Name of the archive that caches the tree installed for `hash`. */
  function ArchiveName(hash: string): (name: string)
    ensures |name| == |hash| + 4 && name[..|hash|] == hash
  {
    hash + ArchiveSuffix
  }

  /** Name of the empty marker that says the install for `hash` ran a postinstall script. */
  function FlagName(hash: string): (name: string)
    ensures |name| == |hash| + 12 && name[..|hash|] == hash
  {
    hash + FlagSuffix
  }

  /** The lookup: the archive for `hash` exists and is larger than the threshold. */
  predicate IsHit(cache: map<string, nat>, hash: string) {
    ArchiveName(hash) in cache && cache[ArchiveName(hash)] > MinArchiveSize
  }

  /** Two fingerprints never share an archive file. */
  lemma ArchiveNameInjective(h1: string, h2: string)
    requires ArchiveName(h1) == ArchiveName(h2)
    ensures h1 == h2
  {
  }

  /** Two fingerprints never share a flag file. */
  lemma FlagNameInjective(h1: string, h2: string)
    requires FlagName(h1) == FlagName(h2)
    ensures h1 == h2
  {
  }

  /** An archive is never taken for a flag file, whatever the two fingerprints. */
  lemma ArchiveIsNotFlag(h1: string, h2: string)
    ensures ArchiveName(h1) != FlagName(h2)
  {
    var a, f := ArchiveName(h1), FlagName(h2);
    assert a[|a| - 1] == 'z';
    assert f[|f| - 1] == 'l';
  }

  /** Some file name in a non-empty directory. */
  ghost function PickName(m: map<string, nat>): (k: string)
    requires m != map[]
    ensures k in m
  {
    var k :| k in m; k
  }

  lemma RemoveOne(m: map<string, nat>, k: string)
    requires k in m
    ensures |m - {k}| == |m| - 1
  {
  }

  /** The sum of the sizes of every file in the directory. */
  ghost function Total(m: map<string, nat>): nat
    decreases |m|
  {
    if m == map[] then 0
    else
      var k := PickName(m);
      RemoveOne(m, k);
      m[k] + Total(m - {k})
  }

  /** The sum does not depend on the order in which the files are visited:
      any file may be taken out first. */
  lemma {:induction false} TotalRemove(m: map<string, nat>, k: string)
    requires k in m
    ensures Total(m) == m[k] + Total(m - {k})
    decreases |m|
  {
    var j := PickName(m);
    if j != k {
      RemoveOne(m, j);
      RemoveOne(m, k);
      TotalRemove(m - {j}, k);
      TotalRemove(m - {k}, j);
      assert m - {j} - {k} == m - {k} - {j};
    }
  }

  /** Adding a new file adds its size to the total. */
  lemma TotalInsert(m: map<string, nat>, k: string, size: nat)
    requires k !in m
    ensures Total(m[k := size]) == Total(m) + size
  {
    TotalRemove(m[k := size], k);
    assert m[k := size] - {k} == m;
  }

  /** Replacing a file changes the total by the difference of the sizes. */
  lemma TotalReplace(m: map<string, nat>, k: string, size: nat)
    requires k in m
    ensures Total(m[k := size]) == Total(m) - m[k] + size
  {
    TotalRemove(m, k);
    TotalRemove(m[k := size], k);
    assert m[k := size] - {k} == m - {k};
  }

  /** Two files of one mebibyte each make two mebibytes. */
  lemma TwoMebibytes(a: string, b: string)
    requires a != b
    ensures Total(map[a := 1048576, b := 1048576]) == 2097152
  {
    var m := map[a := 1048576];
    TotalInsert(m, b, 1048576);
    TotalInsert(map[], a, 1048576);
    assert map[][a := 1048576] == m;
    assert m[b := 1048576] == map[a := 1048576, b := 1048576];
  }
}
