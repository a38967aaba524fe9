/**
 What a vault scan should report: the files it could read, and the difference between them and
 the recorded files, with a rename paired exactly where one deleted and one created file share a
 hash.
 */
module ScanModel {
  import opened Collections
  import opened Options

  type Path = string
  type Key = string
  type Hash = string
  type DocId = nat

  /** Path keys fold separators, and case where the vault ignores it. */
  datatype Vault = Vault(pathKey: Path -> Key)

  datatype FileStat = FileStat(path: Path, size: nat, mtime: int)

  datatype Snapshot = Snapshot(path: Path, key: Key, size: nat, mtime: int, hash: Hash, document: Option<DocId>)

  type Files = map<Key, Snapshot>

  /** A listing and the hashes of the files that can be read. */
  datatype Disk = Disk(listing: seq<FileStat>, content: map<Path, Hash>)

  datatype Kind = Created | Modified | Renamed | Deleted | AmbiguousRename | ReadFailed

  datatype Change = Change(kind: Kind, oldPath: Option<Path>, newPath: Option<Path>, hash: Option<Hash>,
                           document: Option<DocId>)

  ghost predicate WellKeyed(vault: Vault, files: Files) {
    forall k :: k in files ==> files[k].key == k && vault.pathKey(files[k].path) == k
  }

  ghost predicate DistinctKeys(vault: Vault, listing: seq<FileStat>) {
    forall i, j :: 0 <= i < j < |listing| ==> vault.pathKey(listing[i].path) != vault.pathKey(listing[j].path)
  }

  // ---------- Reading ----------

  predicate MustHash(previous: Files, stat: FileStat, key: Key, full: bool) {
    full || key !in previous || previous[key].size != stat.size || previous[key].mtime != stat.mtime
  }

  function OldDocument(previous: Files, key: Key): Option<DocId> {
    if key in previous then previous[key].document else None
  }

  predicate Readable(vault: Vault, previous: Files, disk: Disk, stat: FileStat, full: bool) {
    MustHash(previous, stat, vault.pathKey(stat.path), full) ==> stat.path in disk.content
  }

  function SnapshotOf(vault: Vault, previous: Files, disk: Disk, stat: FileStat, full: bool): Snapshot
    requires Readable(vault, previous, disk, stat, full)
  {
    var key := vault.pathKey(stat.path);
    Snapshot(stat.path, key, stat.size, stat.mtime,
             if MustHash(previous, stat, key, full) then disk.content[stat.path] else previous[key].hash,
             OldDocument(previous, key))
  }

  function FailureOf(vault: Vault, previous: Files, stat: FileStat): Change {
    var key := vault.pathKey(stat.path);
    Change(ReadFailed, if key in previous then Some(previous[key].path) else None, Some(stat.path), None,
           OldDocument(previous, key))
  }

  /** The files a scan of the first `n` listed ones finds, in listing order. */
  function FilesOf(vault: Vault, previous: Files, disk: Disk, full: bool, n: nat): seq<Snapshot>
    requires n <= |disk.listing|
  {
    if n == 0 then []
    else
      var rest := FilesOf(vault, previous, disk, full, n - 1);
      var stat := disk.listing[n - 1];
      if Readable(vault, previous, disk, stat, full)
      then rest + [SnapshotOf(vault, previous, disk, stat, full)] else rest
  }

  function FailuresOf(vault: Vault, previous: Files, disk: Disk, full: bool, n: nat): seq<Change>
    requires n <= |disk.listing|
  {
    if n == 0 then []
    else
      var rest := FailuresOf(vault, previous, disk, full, n - 1);
      var stat := disk.listing[n - 1];
      if Readable(vault, previous, disk, stat, full) then rest else rest + [FailureOf(vault, previous, stat)]
  }

  function ByKey(files: seq<Snapshot>): Files {
    if files == [] then map[]
    else ByKey(files[..|files| - 1])[files[|files| - 1].key := files[|files| - 1]]
  }

  // ---------- Difference ----------

  function Departed(previous: Files, current: Files): set<Key> {
    previous.Keys - current.Keys
  }

  function Arrived(previous: Files, current: Files): set<Key> {
    current.Keys - previous.Keys
  }

  function WithHash(files: Files, keys: set<Key>, h: Hash): set<Key> {
    set k | k in keys && k in files && files[k].hash == h
  }

  predicate Paired(previous: Files, current: Files, h: Hash) {
    |WithHash(previous, Departed(previous, current), h)| == 1 && |WithHash(current, Arrived(previous, current), h)| == 1
  }

  /** Deleted and created files share the hash, but not one of each. */
  predicate Ambiguous(previous: Files, current: Files, h: Hash) {
    && WithHash(previous, Departed(previous, current), h) != {}
    && WithHash(current, Arrived(previous, current), h) != {}
    && !Paired(previous, current, h)
  }

  ghost function Only(keys: set<Key>): Key
    requires |keys| == 1
    ensures Only(keys) in keys
  {
    var k :| k in keys;
    k
  }

  lemma OnlyIsUnique(keys: set<Key>, k: Key)
    requires |keys| == 1 && k in keys
    ensures Only(keys) == k && keys == {k}
  {
    if Only(keys) != k {
      assert {k, Only(keys)} <= keys;
      SubsetSize({k, Only(keys)}, keys);
    }
    if other :| other in keys && other != k {
      SubsetSize({k, other}, keys);
    }
  }

  ghost function RenameOf(previous: Files, current: Files, h: Hash): Change
    requires Paired(previous, current, h)
  {
    var gone := previous[Only(WithHash(previous, Departed(previous, current), h))];
    var file := current[Only(WithHash(current, Arrived(previous, current), h))];
    Change(Renamed, Some(gone.path), Some(file.path), Some(h), gone.document)
  }

  function GoneOf(previous: Files, current: Files, k: Key): Change
    requires k in previous
  {
    var gone := previous[k];
    Change(if Ambiguous(previous, current, gone.hash) then AmbiguousRename else Deleted,
           Some(gone.path), None, Some(gone.hash), gone.document)
  }

  function NewOf(previous: Files, current: Files, k: Key): Change
    requires k in current
  {
    var file := current[k];
    Change(if Ambiguous(previous, current, file.hash) then AmbiguousRename else Created,
           None, Some(file.path), Some(file.hash), None)
  }

  function EditOf(previous: Files, current: Files, k: Key): Change
    requires k in previous && k in current
  {
    Change(Modified, Some(previous[k].path), Some(current[k].path), Some(current[k].hash), previous[k].document)
  }

  function Hashes(files: Files, keys: set<Key>): set<Hash> {
    set k | k in keys && k in files :: files[k].hash
  }

  function RenameHashes(previous: Files, current: Files): set<Hash> {
    set h | h in Hashes(previous, Departed(previous, current)) && Paired(previous, current, h)
  }

  function Edited(previous: Files, current: Files): set<Key> {
    set k | k in previous && k in current && previous[k].hash != current[k].hash
  }

  /** Departed keys that are not one half of a rename, and arrived keys likewise. */
  function Gone(previous: Files, current: Files): set<Key> {
    set k | k in previous && k !in current && !Paired(previous, current, previous[k].hash)
  }

  function Fresh(previous: Files, current: Files): set<Key> {
    set k | k in current && k !in previous && !Paired(previous, current, current[k].hash)
  }

  ghost function Renames(previous: Files, current: Files, hashes: set<Hash>): set<Change> {
    set h | h in hashes && Paired(previous, current, h) :: RenameOf(previous, current, h)
  }

  function Removals(previous: Files, current: Files, keys: set<Key>): set<Change> {
    set k | k in keys && k in previous :: GoneOf(previous, current, k)
  }

  function Additions(previous: Files, current: Files, keys: set<Key>): set<Change> {
    set k | k in keys && k in current :: NewOf(previous, current, k)
  }

  function Edits(previous: Files, current: Files, keys: set<Key>): set<Change> {
    set k | k in keys && k in previous && k in current :: EditOf(previous, current, k)
  }

  ghost function ChangeSet(previous: Files, current: Files): set<Change> {
    Renames(previous, current, RenameHashes(previous, current))
    + Removals(previous, current, Gone(previous, current))
    + Additions(previous, current, Fresh(previous, current))
    + Edits(previous, current, Edited(previous, current))
  }

  /** Where a departed key's file went, and where an arrived key's file came from. */
  ghost function Target(previous: Files, current: Files, k: Key): Option<Key>
    requires k in previous
  {
    if k !in current && Paired(previous, current, previous[k].hash)
    then Some(Only(WithHash(current, Arrived(previous, current), previous[k].hash))) else None
  }

  ghost function Origin(previous: Files, current: Files, k: Key): Option<Key>
    requires k in current
  {
    if k !in previous && Paired(previous, current, current[k].hash)
    then Some(Only(WithHash(previous, Departed(previous, current), current[k].hash))) else None
  }

  /** Renames pair keys one to one: each half leads back to the other, over the same hash. */
  lemma RenamesAreOneToOne(previous: Files, current: Files, k: Key, j: Key)
    requires k in previous && j in current
    ensures Target(previous, current, k) == Some(j) <==> Origin(previous, current, j) == Some(k)
    ensures Target(previous, current, k) == Some(j) ==>
      k !in current && j !in previous && previous[k].hash == current[j].hash
  {
    if k !in current && Paired(previous, current, previous[k].hash) {
      OnlyIsUnique(WithHash(previous, Departed(previous, current), previous[k].hash), k);
    }
    if j !in previous && Paired(previous, current, current[j].hash) {
      OnlyIsUnique(WithHash(current, Arrived(previous, current), current[j].hash), j);
    }
  }

  /** A departed and an arrived file with one hash are paired unless others share that hash. */
  lemma PairedExactlyWhen(previous: Files, current: Files, k: Key, j: Key)
    requires k in Departed(previous, current) && j in Arrived(previous, current)
    requires previous[k].hash == current[j].hash
    ensures Target(previous, current, k) == Some(j) <==>
      && (forall x :: x in Departed(previous, current) && previous[x].hash == previous[k].hash ==> x == k)
      && (forall x :: x in Arrived(previous, current) && current[x].hash == previous[k].hash ==> x == j)
  {
    var h := previous[k].hash;
    var olds, news := WithHash(previous, Departed(previous, current), h), WithHash(current, Arrived(previous, current), h);
    if Paired(previous, current, h) {
      OnlyIsUnique(olds, k);
      OnlyIsUnique(news, j);
      forall x | x in Departed(previous, current) && previous[x].hash == h ensures x == k {
        assert x in olds;
      }
      forall x | x in Arrived(previous, current) && current[x].hash == h ensures x == j {
        assert x in news;
      }
    } else {
      assert olds != {k} || news != {j};
      assert k in olds && j in news;
    }
  }

  // ---------- Every key has exactly one class ----------

  /** The key a change takes away, and the key it brings. */
  ghost predicate Takes(vault: Vault, c: Change, k: Key) {
    c.oldPath.Some? && vault.pathKey(c.oldPath.value) == k
  }

  ghost predicate Brings(vault: Vault, c: Change, k: Key) {
    c.newPath.Some? && vault.pathKey(c.newPath.value) == k
  }

  /**
   A previous key is the old side of exactly one change when its file is gone or edited and of no
   change otherwise; likewise a current key as the new side.
   */
  lemma OldKeyHasOneChange(vault: Vault, previous: Files, current: Files, k: Key)
    requires WellKeyed(vault, previous) && WellKeyed(vault, current) && k in previous
    ensures var mine := set c | c in ChangeSet(previous, current) && Takes(vault, c, k);
      if k !in current || current[k].hash != previous[k].hash then exists c :: mine == {c} else mine == {}
  {
    var mine := set c | c in ChangeSet(previous, current) && Takes(vault, c, k);
    forall c | c in mine
      ensures Some(c) == OldChange(previous, current, k)
    {
      if h :| h in RenameHashes(previous, current) && c == RenameOf(previous, current, h) {
        OnlyIsUnique(WithHash(previous, Departed(previous, current), h), k);
      }
    }
    var only := OldChange(previous, current, k);
    if only.Some? {
      OldChangeIsReal(vault, previous, current, k);
      assert mine == {only.value};
    }
  }

  lemma NewKeyHasOneChange(vault: Vault, previous: Files, current: Files, k: Key)
    requires WellKeyed(vault, previous) && WellKeyed(vault, current) && k in current
    ensures var mine := set c | c in ChangeSet(previous, current) && Brings(vault, c, k);
      if k !in previous || current[k].hash != previous[k].hash then exists c :: mine == {c} else mine == {}
  {
    var mine := set c | c in ChangeSet(previous, current) && Brings(vault, c, k);
    forall c | c in mine
      ensures Some(c) == NewChange(previous, current, k)
    {
      if h :| h in RenameHashes(previous, current) && c == RenameOf(previous, current, h) {
        OnlyIsUnique(WithHash(current, Arrived(previous, current), h), k);
      }
    }
    var only := NewChange(previous, current, k);
    if only.Some? {
      NewChangeIsReal(vault, previous, current, k);
      assert mine == {only.value};
    }
  }

  ghost function OldChange(previous: Files, current: Files, k: Key): Option<Change>
    requires k in previous
  {
    if k in current then
      if previous[k].hash != current[k].hash then Some(EditOf(previous, current, k)) else None
    else if Paired(previous, current, previous[k].hash) then Some(RenameOf(previous, current, previous[k].hash))
    else Some(GoneOf(previous, current, k))
  }

  ghost function NewChange(previous: Files, current: Files, k: Key): Option<Change>
    requires k in current
  {
    if k in previous then
      if previous[k].hash != current[k].hash then Some(EditOf(previous, current, k)) else None
    else if Paired(previous, current, current[k].hash) then Some(RenameOf(previous, current, current[k].hash))
    else Some(NewOf(previous, current, k))
  }

  lemma OldChangeIsReal(vault: Vault, previous: Files, current: Files, k: Key)
    requires k in previous && OldChange(previous, current, k).Some?
    ensures OldChange(previous, current, k).value in ChangeSet(previous, current)
    ensures WellKeyed(vault, previous) ==> Takes(vault, OldChange(previous, current, k).value, k)
  {
    if k !in current && Paired(previous, current, previous[k].hash) {
      OnlyIsUnique(WithHash(previous, Departed(previous, current), previous[k].hash), k);
      assert previous[k].hash in RenameHashes(previous, current);
    } else if k !in current {
      assert k in Gone(previous, current);
    } else {
      assert k in Edited(previous, current);
    }
  }

  lemma NewChangeIsReal(vault: Vault, previous: Files, current: Files, k: Key)
    requires k in current && NewChange(previous, current, k).Some?
    ensures NewChange(previous, current, k).value in ChangeSet(previous, current)
    ensures WellKeyed(vault, current) ==> Brings(vault, NewChange(previous, current, k).value, k)
  {
    if k !in previous && Paired(previous, current, current[k].hash) {
      var h := current[k].hash;
      OnlyIsUnique(WithHash(current, Arrived(previous, current), h), k);
      var source := Only(WithHash(previous, Departed(previous, current), h));
      assert h in Hashes(previous, Departed(previous, current));
    } else if k !in previous {
      assert k in Fresh(previous, current);
    } else {
      assert k in Edited(previous, current);
    }
  }

  /**
   What is reported of a recorded file: nothing while its hash stays, an edit when it changes; and once its key is
   gone, a deletion when no new file has its hash, a rename when exactly one has and no other file that is gone had
   it, and an ambiguous rename otherwise.
   */
  ghost predicate OldIsReported(previous: Files, current: Files, changes: set<Change>, k: Key)
    requires k in previous
  {
    var was := previous[k];
    && (k in current && current[k].hash != was.hash ==>
          Change(Modified, Some(was.path), Some(current[k].path), Some(current[k].hash), was.document) in changes)
    && (k !in current && (forall j :: j in current && j !in previous ==> current[j].hash != was.hash) ==>
          Change(Deleted, Some(was.path), None, Some(was.hash), was.document) in changes)
    && (forall j :: k !in current && j in current && j !in previous && current[j].hash == was.hash ==>
          if && (forall x :: x in previous && x !in current && previous[x].hash == was.hash ==> x == k)
             && (forall x :: x in current && x !in previous && current[x].hash == was.hash ==> x == j)
          then Change(Renamed, Some(was.path), Some(current[j].path), Some(was.hash), was.document) in changes
          else Change(AmbiguousRename, Some(was.path), None, Some(was.hash), was.document) in changes)
  }

  lemma OldFilesAreReported(previous: Files, current: Files, k: Key)
    requires k in previous
    ensures OldIsReported(previous, current, ChangeSet(previous, current), k)
  {
    var h := previous[k].hash;
    var olds, news := WithHash(previous, Departed(previous, current), h), WithHash(current, Arrived(previous, current), h);
    if OldChange(previous, current, k).Some? {
      OldChangeIsReal(Vault(p => p), previous, current, k);
    }
    if k !in current {
      assert k in olds;
      forall j | j in current && j !in previous && current[j].hash == h
        ensures j in news && (Paired(previous, current, h) <==>
            && (forall x :: x in previous && x !in current && previous[x].hash == h ==> x == k)
            && (forall x :: x in current && x !in previous && current[x].hash == h ==> x == j))
        ensures Paired(previous, current, h) ==>
          RenameOf(previous, current, h) == Change(Renamed, Some(previous[k].path), Some(current[j].path), Some(h),
                                                   previous[k].document)
      {
        PairedExactlyWhen(previous, current, k, j);
        if Paired(previous, current, h) {
          OnlyIsUnique(olds, k);
          OnlyIsUnique(news, j);
        }
      }
    }
  }

  /** A new file is a creation unless a file that is gone had its hash; then it is half of a rename or ambiguous. */
  ghost predicate NewIsReported(previous: Files, current: Files, changes: set<Change>, j: Key)
    requires j in current
  {
    var file := current[j];
    && (j !in previous && (forall k :: k in previous && k !in current ==> previous[k].hash != file.hash) ==>
          Change(Created, None, Some(file.path), Some(file.hash), None) in changes)
    && (forall k :: j !in previous && k in previous && k !in current && previous[k].hash == file.hash ==>
          if && (forall x :: x in previous && x !in current && previous[x].hash == file.hash ==> x == k)
             && (forall x :: x in current && x !in previous && current[x].hash == file.hash ==> x == j)
          then Change(Renamed, Some(previous[k].path), Some(file.path), Some(file.hash), previous[k].document) in changes
          else Change(AmbiguousRename, None, Some(file.path), Some(file.hash), None) in changes)
  }

  lemma NewFilesAreReported(previous: Files, current: Files, j: Key)
    requires j in current
    ensures NewIsReported(previous, current, ChangeSet(previous, current), j)
  {
    var h := current[j].hash;
    var olds, news := WithHash(previous, Departed(previous, current), h), WithHash(current, Arrived(previous, current), h);
    if NewChange(previous, current, j).Some? {
      NewChangeIsReal(Vault(p => p), previous, current, j);
    }
    if j !in previous {
      assert j in news;
      forall k | k in previous && k !in current && previous[k].hash == h
        ensures k in olds && (Paired(previous, current, h) <==>
            && (forall x :: x in previous && x !in current && previous[x].hash == h ==> x == k)
            && (forall x :: x in current && x !in previous && current[x].hash == h ==> x == j))
        ensures Paired(previous, current, h) ==>
          RenameOf(previous, current, h) == Change(Renamed, Some(previous[k].path), Some(current[j].path), Some(h),
                                                   previous[k].document)
      {
        PairedExactlyWhen(previous, current, k, j);
        if Paired(previous, current, h) {
          OnlyIsUnique(olds, k);
          OnlyIsUnique(news, j);
        }
      }
    }
  }

  /** Nothing is reported exactly when the two key-to-hash maps are equal. */
  lemma NoChangeExactlyWhen(previous: Files, current: Files)
    ensures ChangeSet(previous, current) == {} <==>
      previous.Keys == current.Keys && forall k :: k in previous ==> previous[k].hash == current[k].hash
  {
    if ChangeSet(previous, current) == {} {
      forall k | k in previous ensures k in current && previous[k].hash == current[k].hash {
        if OldChange(previous, current, k).Some? {
          OldChangeIsReal(Vault(p => p), previous, current, k);
        }
      }
      forall k | k in current ensures k in previous {
        if NewChange(previous, current, k).Some? {
          NewChangeIsReal(Vault(p => p), previous, current, k);
        }
      }
    }
  }

  // ---------- Files ----------

  /**
   What a scan makes of one listed file. It reads the file when the scan is a full one, when the key is new and when
   the recorded size or time differs; a file it cannot read is a failure. It takes over the recorded hash otherwise.
   */
  ghost predicate TakenIn(previous: Files, disk: Disk, full: bool, key: Key, stat: FileStat, current: Files,
                          failures: seq<Change>) {
    var document := if key in previous then previous[key].document else None;
    if full || key !in previous || previous[key].size != stat.size || previous[key].mtime != stat.mtime then
      if stat.path in disk.content then
        && key in current
        && current[key] == Snapshot(stat.path, key, stat.size, stat.mtime, disk.content[stat.path], document)
      else
        && key !in current
        && Change(ReadFailed, if key in previous then Some(previous[key].path) else None, Some(stat.path), None, document)
           in failures
    else
      && key in current
      && current[key] == Snapshot(stat.path, key, stat.size, stat.mtime, previous[key].hash, document)
  }

  /** A scan finds exactly the listed files it could read or trust, each under its own key, and reports the others. */
  lemma {:induction false} FilesByKey(vault: Vault, previous: Files, disk: Disk, full: bool, n: nat)
    requires n <= |disk.listing| && DistinctKeys(vault, disk.listing)
    ensures var current := ByKey(FilesOf(vault, previous, disk, full, n));
      && WellKeyed(vault, current)
      && (forall i :: 0 <= i < n ==>
            TakenIn(previous, disk, full, vault.pathKey(disk.listing[i].path), disk.listing[i], current,
                    FailuresOf(vault, previous, disk, full, n)))
      && (forall k :: k in current ==> exists i :: 0 <= i < n && vault.pathKey(disk.listing[i].path) == k)
  {
    if n > 0 {
      FilesByKey(vault, previous, disk, full, n - 1);
      var stat := disk.listing[n - 1];
      var rest, failed := FilesOf(vault, previous, disk, full, n - 1), FailuresOf(vault, previous, disk, full, n - 1);
      var files, failures := FilesOf(vault, previous, disk, full, n), FailuresOf(vault, previous, disk, full, n);
      assert files != rest ==> files[..|files| - 1] == rest;
      forall i | 0 <= i < n
        ensures TakenIn(previous, disk, full, vault.pathKey(disk.listing[i].path), disk.listing[i], ByKey(files), failures)
      {
        if i < n - 1 {
          TakenStays(previous, disk, full, vault.pathKey(disk.listing[i].path), disk.listing[i],
                     ByKey(rest), failed, ByKey(files), failures);
        } else {
          TakenLast(vault, previous, disk, full, stat, ByKey(files), failures);
        }
      }
    }
  }

  lemma TakenStays(previous: Files, disk: Disk, full: bool, key: Key, stat: FileStat, current: Files,
                   failures: seq<Change>, current': Files, failures': seq<Change>)
    requires TakenIn(previous, disk, full, key, stat, current, failures)
    requires forall c :: c in failures ==> c in failures'
    requires key in current <==> key in current'
    requires key in current ==> current[key] == current'[key]
    ensures TakenIn(previous, disk, full, key, stat, current', failures')
  {
  }

  lemma TakenLast(vault: Vault, previous: Files, disk: Disk, full: bool, stat: FileStat, current: Files,
                  failures: seq<Change>)
    requires var key := vault.pathKey(stat.path);
      if Readable(vault, previous, disk, stat, full)
      then key in current && current[key] == SnapshotOf(vault, previous, disk, stat, full)
      else key !in current && FailureOf(vault, previous, stat) in failures
    ensures TakenIn(previous, disk, full, vault.pathKey(stat.path), stat, current, failures)
  {
  }

  /** Every file of unchanged size and time has its recorded hash on disk. */
  ghost predicate Trustworthy(vault: Vault, previous: Files, disk: Disk, n: nat)
    requires n <= |disk.listing|
  {
    forall i :: 0 <= i < n ==>
      var stat := disk.listing[i];
      var key := vault.pathKey(stat.path);
      key in previous && previous[key].size == stat.size && previous[key].mtime == stat.mtime ==>
        stat.path in disk.content && disk.content[stat.path] == previous[key].hash
  }

  /** An incremental scan finds what a full rehash finds exactly when it may trust size and mtime. */
  lemma {:induction false} IncrementalAgreesExactlyWhen(vault: Vault, previous: Files, disk: Disk, n: nat)
    requires n <= |disk.listing|
    ensures FilesOf(vault, previous, disk, false, n) == FilesOf(vault, previous, disk, true, n)
      <==> Trustworthy(vault, previous, disk, n)
    ensures Trustworthy(vault, previous, disk, n) ==>
      FailuresOf(vault, previous, disk, false, n) == FailuresOf(vault, previous, disk, true, n)
  {
    if n > 0 {
      IncrementalAgreesExactlyWhen(vault, previous, disk, n - 1);
      FullFindsNoMore(vault, previous, disk, n - 1);
      var quick, slow := FilesOf(vault, previous, disk, false, n), FilesOf(vault, previous, disk, true, n);
      var quickRest, slowRest := FilesOf(vault, previous, disk, false, n - 1), FilesOf(vault, previous, disk, true, n - 1);
      assert Trustworthy(vault, previous, disk, n) ==> Trustworthy(vault, previous, disk, n - 1);
      if quick == slow {
        assert quick[..|quickRest|] == quickRest;
        assert slow[..|slowRest|] == slowRest;
      }
    }
  }

  lemma {:induction false} FullFindsNoMore(vault: Vault, previous: Files, disk: Disk, n: nat)
    requires n <= |disk.listing|
    ensures |FilesOf(vault, previous, disk, true, n)| <= |FilesOf(vault, previous, disk, false, n)|
  {
    if n > 0 {
      FullFindsNoMore(vault, previous, disk, n - 1);
    }
  }
}
