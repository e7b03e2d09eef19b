/**
 * The configuration store: one canonical configuration file and a backup
 * directory of timestamp-named snapshots, pruned to the newest `MaxKeep`.
 * The file system is abstract: the directory is a map from file name to
 * stored document (None while the directory does not exist), and the
 * timestamp is supplied by the caller.
 */
module Storage {
  import opened Wrappers
  import opened Seqs
  import opened Lex

  const MaxKeep := 5
  const BackupSuffix := ".json"

  datatype Store<T> = Store(config: Option<T>, backups: Option<map<string, T>>)

  predicate EndsWith(s: string, suffix: string) {
    |suffix| <= |s| && s[|s| - |suffix|..] == suffix
  }

  /** Names the pattern `*.json` matches. */
  predicate IsBackupName(name: string) {
    EndsWith(name, BackupSuffix)
  }

  function BackupNames<T>(dir: map<string, T>): set<string> {
    set n | n in dir && IsBackupName(n)
  }

  // ---------------------------------------------------------------------------
  // The canonical configuration
  // ---------------------------------------------------------------------------

  /** `load_config`: the stored configuration, or None when nothing is stored. */
  function LoadConfig<T>(s: Store<T>): (r: Option<T>)
    ensures r.None? <==> s.config.None?
    ensures r.Some? ==> r.value == s.config.value
  {
    s.config
  }

  /** `save_config`: overwrite the stored configuration without making a backup. */
  function SaveConfig<T>(s: Store<T>, cfg: T): (s': Store<T>)
    ensures s'.backups == s.backups
    ensures LoadConfig(s') == Some(cfg)
  {
    s.(config := Some(cfg))
  }

  // ---------------------------------------------------------------------------
  // Backups
  // ---------------------------------------------------------------------------

  /** `list_backups`: the backup names in ascending order, so the newest is last. */
  method ListBackups<T>(s: Store<T>) returns (names: seq<string>)
    ensures s.backups.None? ==> names == []
    ensures s.backups.Some? ==> Sorted(names) && Elems(names) == BackupNames(s.backups.value)
  {
    if s.backups.None? {
      return [];
    }
    names := SortNames(BackupNames(s.backups.value));
  }

  /** `load_backup`: the snapshot stored under `name`, or None when there is no such file. */
  function LoadBackup<T>(s: Store<T>, name: string): (r: Option<T>)
    ensures r.Some? <==> s.backups.Some? && name in s.backups.value
    ensures r.Some? ==> r.value == s.backups.value[name]
  {
    match s.backups
    case None => None
    case Some(dir) => if name in dir then Some(dir[name]) else None
  }

  /** The elements of a sorted sequence split at `k`: every element before `k` sorts before every one after. */
  lemma SortedSplit(files: seq<string>, k: nat)
    requires Sorted(files) && k <= |files|
    ensures forall a, b :: a in files[..k] && b in files[k..] ==> Less(a, b)
  {
    forall a, b | a in files[..k] && b in files[k..]
      ensures Less(a, b)
    {
      var i :| 0 <= i < k && files[i] == a;
      var j :| k <= j < |files| && files[j] == b;
    }
  }

  /** The backups left after deleting the first `k` of the sorted listing `files` are the rest of the listing. */
  lemma {:induction false} KeptAfterDelete<T>(dir: map<string, T>, files: seq<string>, k: nat)
    requires Sorted(files) && Elems(files) == BackupNames(dir) && k <= |files|
    ensures BackupNames(dir - Elems(files[..k])) == Elems(files[k..])
    ensures |BackupNames(dir - Elems(files[..k]))| == |files| - k
  {
    assert files == files[..k] + files[k..];
    SortedNoDup(files);
    SortedSplit(files, k);
    forall n
      ensures n in BackupNames(dir - Elems(files[..k])) <==> n in Elems(files[k..])
    {
      assert n in Elems(files) <==> n in files[..k] || n in files[k..];
      LessIrreflexive(n);
    }
    var kept := files[k..];
    assert NoDup(kept) by {
      forall x, y | 0 <= x < y < |kept| ensures kept[x] != kept[y] {
        assert kept[x] == files[k + x] && kept[y] == files[k + y];
      }
    }
    CardOfNoDup(kept);
  }

  /**
   * `_prune_backups`: delete the backup files that sort first until at most
   * `maxKeep` remain. Exactly the `|backups| - maxKeep` smallest names go;
   * every other file stays with its content.
   */
  method PruneBackups<T>(dir: map<string, T>, maxKeep: nat) returns (dir': map<string, T>)
    ensures dir'.Keys <= dir.Keys
    ensures forall n :: n in dir' ==> dir'[n] == dir[n]
    ensures forall n :: n in dir && !IsBackupName(n) ==> n in dir'
    ensures |BackupNames(dir)| <= maxKeep ==> dir' == dir
    ensures |BackupNames(dir')| == if |BackupNames(dir)| <= maxKeep then |BackupNames(dir)| else maxKeep
    ensures forall a, b :: a in dir && a !in dir' && b in BackupNames(dir') ==> Less(a, b)
  {
    var files := SortNames(BackupNames(dir));
    var excess := |files| - maxKeep;
    dir' := dir;
    var i := 0;
    while i < excess
      invariant 0 <= i <= |files|
      invariant excess > 0 ==> i <= excess
      invariant excess <= 0 ==> i == 0
      invariant dir' == dir - Elems(files[..i])
    {
      assert files[..i + 1] == files[..i] + [files[i]];
      dir' := dir' - {files[i]};
      i := i + 1;
    }
    SortedNoDup(files);
    CardOfNoDup(files);
    KeptAfterDelete(dir, files, i);
    SortedSplit(files, i);
    assert forall n :: n in files[..i] ==> n in Elems(files);
    if excess <= 0 {
      assert files[..i] == [];
    }
  }

  /**
   * `create_backup`: write `cfg` under `ts + ".json"`, creating the
   * directory when it is missing, then prune to `MaxKeep` backups.
   */
  method CreateBackup<T>(s: Store<T>, ts: string, cfg: T) returns (s': Store<T>, name: string)
    ensures name == ts + BackupSuffix
    ensures s'.config == s.config
    ensures s'.backups.Some?
    ensures var before := s.backups.GetOr(map[]);
            var after := s'.backups.value;
            && |BackupNames(after)| <= MaxKeep
            && |BackupNames(after)| == Min(MaxKeep, |BackupNames(before) + {name}|)
            && (name in before ==> |BackupNames(after)| == Min(MaxKeep, |BackupNames(before)|))
            && (forall n :: n in after ==> (n == name && after[n] == cfg) || (n != name && n in before && after[n] == before[n]))
            && (forall n :: n in before && !IsBackupName(n) ==> n in after)
            && (forall a, b :: a in BackupNames(before) + {name} && a !in after && b in BackupNames(after) ==> Less(a, b))
            && ((forall n :: n in BackupNames(before) ==> LessEq(n, name)) ==> LoadBackup(s', name) == Some(cfg))
  {
    name := ts + BackupSuffix;
    var before := s.backups.GetOr(map[]);
    var dir := before[name := cfg];
    assert name[|ts|..] == BackupSuffix;
    assert BackupNames(dir) == BackupNames(before) + {name};
    var after := PruneBackups(dir, MaxKeep);
    s' := Store(s.config, Some(after));
    if name in before {
      assert BackupNames(before) + {name} == BackupNames(before);
    }
    if forall n :: n in BackupNames(before) ==> LessEq(n, name) {
      NewestSurvives(dir, after, name);
    }
  }

  function Min(a: int, b: int): int {
    if a <= b then a else b
  }

  /** A prune that keeps any backup keeps the newest one. */
  lemma NewestSurvives<T>(dir: map<string, T>, after: map<string, T>, name: string)
    requires name in BackupNames(dir)
    requires forall n :: n in BackupNames(dir) ==> LessEq(n, name)
    requires after.Keys <= dir.Keys
    requires |BackupNames(after)| >= 1
    requires forall a, b :: a in dir && a !in after && b in BackupNames(after) ==> Less(a, b)
    ensures name in after
  {
    var b :| b in BackupNames(after);
    assert b in BackupNames(dir);
    LessIrreflexive(name);
    if b != name {
      LessAsymmetric(b, name);
    }
  }
}
