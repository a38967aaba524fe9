/** The vault scanner's loops, proved against the declarative difference. */
module Scanner {
  import opened Collections
  import opened Options
  import opened ScanModel

  datatype ScanResult = ScanResult(files: seq<Snapshot>, failures: seq<Change>, changes: seq<Change>,
                                   hashed: nat, trusted: nat, failed: nat,
                                   newCount: nat, modified: nat, renamed: nat, deleted: nat, bytes: nat)

  ghost function Elements<T(!new)>(s: seq<T>): set<T> {
    set x | x in s
  }

  /** A list holds exactly the elements of `all`, each once. */
  ghost predicate Lists<T(!new)>(s: seq<T>, all: set<T>) {
    Elements(s) == all && NoDuplicates(s)
  }

  lemma ListsOneMore<T(!new)>(s: seq<T>, all: set<T>, x: T)
    requires Lists(s, all) && x !in all
    ensures Lists(s + [x], all + {x})
  {
    assert forall y :: y in s + [x] <==> y in s || y == x;
    assert x !in Elements(s);
  }

  lemma ListsBoth<T(!new)>(s: seq<T>, all: set<T>, t: seq<T>, more: set<T>)
    requires Lists(s, all) && Lists(t, more) && all !! more
    ensures Lists(s + t, all + more)
  {
    assert forall y :: y in s + t <==> y in s || y in t;
    forall i, j | 0 <= i < |s| && 0 <= j < |t| ensures s[i] != t[j] {
      assert s[i] in Elements(s) && t[j] in Elements(t);
    }
  }

  function CountKind(changes: seq<Change>, kind: Kind): nat {
    if changes == [] then 0
    else CountKind(changes[..|changes| - 1], kind) + (if changes[|changes| - 1].kind == kind then 1 else 0)
  }

  /** A file of the same size and time as recorded under its key. */
  ghost predicate LooksUnchanged(vault: Vault, previous: Files, stat: FileStat) {
    var key := vault.pathKey(stat.path);
    key in previous && previous[key].size == stat.size && previous[key].mtime == stat.mtime
  }

  ghost predicate HashedAt(vault: Vault, previous: Files, disk: Disk, full: bool, i: nat)
    requires i < |disk.listing|
  {
    (full || !LooksUnchanged(vault, previous, disk.listing[i])) && disk.listing[i].path in disk.content
  }

  ghost predicate TrustedAt(vault: Vault, previous: Files, disk: Disk, full: bool, i: nat)
    requires i < |disk.listing|
  {
    !full && LooksUnchanged(vault, previous, disk.listing[i])
  }

  /** The places of the listing whose files are hashed, and those whose recorded hash is trusted. */
  ghost function HashedPlaces(vault: Vault, previous: Files, disk: Disk, full: bool, n: nat): set<nat>
    requires n <= |disk.listing|
  {
    set i: nat | i < n && HashedAt(vault, previous, disk, full, i)
  }

  ghost function TrustedPlaces(vault: Vault, previous: Files, disk: Disk, full: bool, n: nat): set<nat>
    requires n <= |disk.listing|
  {
    set i: nat | i < n && TrustedAt(vault, previous, disk, full, i)
  }

  lemma NoPlaces(vault: Vault, previous: Files, disk: Disk, full: bool)
    ensures HashedPlaces(vault, previous, disk, full, 0) == {} && TrustedPlaces(vault, previous, disk, full, 0) == {}
  {
  }

  lemma OneMoreHashed(vault: Vault, previous: Files, disk: Disk, full: bool, n: nat)
    requires n < |disk.listing|
    ensures |HashedPlaces(vault, previous, disk, full, n + 1)|
      == |HashedPlaces(vault, previous, disk, full, n)| + if HashedAt(vault, previous, disk, full, n) then 1 else 0
  {
    hide HashedAt;
    var places := HashedPlaces(vault, previous, disk, full, n);
    assert HashedPlaces(vault, previous, disk, full, n + 1)
        == if HashedAt(vault, previous, disk, full, n) then places + {n} else places;
  }

  lemma OneMoreTrusted(vault: Vault, previous: Files, disk: Disk, full: bool, n: nat)
    requires n < |disk.listing|
    ensures |TrustedPlaces(vault, previous, disk, full, n + 1)|
      == |TrustedPlaces(vault, previous, disk, full, n)| + if TrustedAt(vault, previous, disk, full, n) then 1 else 0
  {
    hide TrustedAt;
    var places := TrustedPlaces(vault, previous, disk, full, n);
    assert TrustedPlaces(vault, previous, disk, full, n + 1)
        == if TrustedAt(vault, previous, disk, full, n) then places + {n} else places;
  }

  function TotalSize(files: seq<Snapshot>): nat {
    if files == [] then 0 else TotalSize(files[..|files| - 1]) + files[|files| - 1].size
  }

  class VaultScanner {
    const vault: Vault
    const disk: Disk

    constructor (vault: Vault, disk: Disk)
      ensures this.vault == vault && this.disk == disk
    {
      this.vault, this.disk := vault, disk;
    }

    /** Reads the listing in order; a file that cannot be read is reported and skipped. */
    method Read(previous: Files, full: bool)
      returns (files: seq<Snapshot>, failures: seq<Change>, hashed: nat, trusted: nat, failed: nat)
      ensures files == FilesOf(vault, previous, disk, full, |disk.listing|)
      ensures failures == FailuresOf(vault, previous, disk, full, |disk.listing|)
      ensures DistinctKeys(vault, disk.listing) ==> forall i :: 0 <= i < |disk.listing| ==>
        TakenIn(previous, disk, full, vault.pathKey(disk.listing[i].path), disk.listing[i], ByKey(files), failures)
      ensures hashed == |HashedPlaces(vault, previous, disk, full, |disk.listing|)|
      ensures trusted == |TrustedPlaces(vault, previous, disk, full, |disk.listing|)|
      ensures hashed + trusted == |files| && failed == |failures|
      ensures hashed + trusted + failed == |disk.listing|
    {
      hide HashedPlaces, TrustedPlaces;
      NoPlaces(vault, previous, disk, full);
      files, failures, hashed, trusted, failed := [], [], 0, 0, 0;
      for i := 0 to |disk.listing|
        invariant files == FilesOf(vault, previous, disk, full, i)
        invariant failures == FailuresOf(vault, previous, disk, full, i)
        invariant hashed == |HashedPlaces(vault, previous, disk, full, i)|
        invariant trusted == |TrustedPlaces(vault, previous, disk, full, i)|
        invariant hashed + trusted == |files| && failed == |failures| && hashed + trusted + failed == i
      {
        OneMoreHashed(vault, previous, disk, full, i);
        OneMoreTrusted(vault, previous, disk, full, i);
        var stat := disk.listing[i];
        var key := vault.pathKey(stat.path);
        var mustHash :=
          full || key !in previous || previous[key].size != stat.size || previous[key].mtime != stat.mtime;
        var document := if key in previous then previous[key].document else None;
        if mustHash && stat.path !in disk.content {
          failed := failed + 1;
          failures := failures + [Change(ReadFailed, if key in previous then Some(previous[key].path) else None,
                                         Some(stat.path), None, document)];
          continue;
        }
        var hash := if mustHash then disk.content[stat.path] else previous[key].hash;
        if mustHash {
          hashed := hashed + 1;
        } else {
          trusted := trusted + 1;
        }
        files := files + [Snapshot(stat.path, key, stat.size, stat.mtime, hash, document)];
      }
      if DistinctKeys(vault, disk.listing) {
        FilesByKey(vault, previous, disk, full, |disk.listing|);
      }
    }

    /** The keys of each hash. */
    method GroupByHash(files: Files, keys: set<Key>) returns (groups: map<Hash, set<Key>>)
      requires keys <= files.Keys
      ensures groups.Keys == Hashes(files, keys)
      ensures forall h :: h in groups ==> groups[h] == WithHash(files, keys, h)
    {
      groups := map[];
      var todo := keys;
      while todo != {}
        invariant todo <= keys
        invariant groups.Keys == Hashes(files, keys - todo)
        invariant forall h :: h in groups ==> groups[h] == WithHash(files, keys - todo, h)
      {
        var k :| k in todo;
        var h := files[k].hash;
        ghost var done := keys - todo;
        assert keys - (todo - {k}) == done + {k};
        HashesAreSeen(files, done, h);
        groups := groups[h := (if h in groups then groups[h] else {}) + {k}];
        todo := todo - {k};
      }
    }

    /** Renames first, over the shared hashes in any order. */
    method Renames(previous: Files, current: Files)
      returns (changes: seq<Change>, oldKeys: set<Key>, newKeys: set<Key>, ambiguous: set<Hash>)
      ensures Lists(changes, ScanModel.Renames(previous, current, RenameHashes(previous, current)))
      ensures Tallies(changes, Renamed, |RenameHashes(previous, current)|, 0)
      ensures oldKeys == Departed(previous, current) - Gone(previous, current)
      ensures newKeys == Arrived(previous, current) - Fresh(previous, current)
      ensures forall h :: h in ambiguous <==> Ambiguous(previous, current, h)
    {
      hide RenamedBy;
      var deletedByHash := GroupByHash(previous, previous.Keys - current.Keys);
      var createdByHash := GroupByHash(current, current.Keys - previous.Keys);
      changes, oldKeys, newKeys, ambiguous := [], {}, {}, {};
      var todo := deletedByHash.Keys * createdByHash.Keys;
      ghost var done: set<Hash> := {};
      RenamesStart(previous, current);
      hide Paired, WithHash, Hashes, RenameHashes, Gone, Fresh, Ambiguous;
      while todo != {}
        invariant done == deletedByHash.Keys * createdByHash.Keys - todo && todo <= deletedByHash.Keys * createdByHash.Keys
        invariant RenamedBy(previous, current, done, changes, oldKeys, newKeys, ambiguous)
      {
        var h :| h in todo;
        var olds, news := deletedByHash[h], createdByHash[h];
        RenameStep(previous, current, done, changes, oldKeys, newKeys, ambiguous, h);
        if |olds| == 1 && |news| == 1 {
          var gone: Key :| gone in olds;
          var come: Key :| come in news;
          PairIs(previous, current, h, gone, come);
          oldKeys, newKeys := oldKeys + {gone}, newKeys + {come};
          changes := changes + [Change(Renamed, Some(previous[gone].path), Some(current[come].path), Some(h),
                                       previous[gone].document)];
        } else {
          NotPaired(previous, current, h);
          ambiguous := ambiguous + {h};
        }
        done := done + {h};
        todo := todo - {h};
      }
      RenamesEnd(previous, current, done, changes, oldKeys, newKeys, ambiguous);
    }

    /** Deleted files that are not the old half of a rename. */
    method Removals(previous: Files, current: Files, oldKeys: set<Key>, ambiguous: set<Hash>)
      returns (changes: seq<Change>)
      requires WellKeyed(vault, previous) && oldKeys == Departed(previous, current) - Gone(previous, current)
      requires forall h :: h in ambiguous <==> Ambiguous(previous, current, h)
      ensures RemovedBy(previous, current, Gone(previous, current), changes)
    {
      hide Gone, Ambiguous, RemovedBy;
      changes := [];
      var todo := (previous.Keys - current.Keys) - oldKeys;
      GoneAreDeparted(previous, current);
      assert todo == Gone(previous, current);
      hide Departed, Arrived, WellKeyed;
      RemovalsStart(previous, current);
      ghost var done: set<Key> := {};
      while todo != {}
        invariant forall k :: k in Gone(previous, current) <==> k in todo || k in done
        invariant forall k :: k in todo ==> k !in done
        invariant RemovedBy(previous, current, done, changes)
      {
        var k :| k in todo;
        var item := previous[k];
        RemovalStep(vault, previous, current, done, changes, k);
        done := done + {k};
        var change := Change(if item.hash in ambiguous then AmbiguousRename else Deleted,
                             Some(item.path), None, Some(item.hash), item.document);
        assert change == GoneOf(previous, current, k);
        changes := changes + [change];
        todo := todo - {k};
      }
      assert done == Gone(previous, current);
    }

    /** Created files that are not the new half of a rename. */
    method Additions(previous: Files, current: Files, newKeys: set<Key>, ambiguous: set<Hash>)
      returns (changes: seq<Change>)
      requires WellKeyed(vault, current) && newKeys == Arrived(previous, current) - Fresh(previous, current)
      requires forall h :: h in ambiguous <==> Ambiguous(previous, current, h)
      ensures AddedBy(previous, current, Fresh(previous, current), changes)
    {
      hide Fresh, Ambiguous, AddedBy;
      changes := [];
      var todo := (current.Keys - previous.Keys) - newKeys;
      FreshAreArrived(previous, current);
      assert todo == Fresh(previous, current);
      hide Departed, Arrived, WellKeyed;
      AdditionsStart(previous, current);
      ghost var done: set<Key> := {};
      while todo != {}
        invariant forall k :: k in Fresh(previous, current) <==> k in todo || k in done
        invariant forall k :: k in todo ==> k !in done
        invariant AddedBy(previous, current, done, changes)
      {
        var k :| k in todo;
        var item := current[k];
        AdditionStep(vault, previous, current, done, changes, k);
        done := done + {k};
        var change := Change(if item.hash in ambiguous then AmbiguousRename else Created,
                             None, Some(item.path), Some(item.hash), None);
        assert change == NewOf(previous, current, k);
        changes := changes + [change];
        todo := todo - {k};
      }
      assert done == Fresh(previous, current);
    }

    method Modifications(previous: Files, current: Files) returns (changes: seq<Change>)
      requires WellKeyed(vault, previous) && WellKeyed(vault, current)
      ensures EditedBy(previous, current, Edited(previous, current), changes)
    {
      hide EditedBy;
      changes := [];
      EditsStart(previous, current);
      var todo := previous.Keys * current.Keys;
      ghost var done: set<Key> := {};
      while todo != {}
        invariant todo <= previous.Keys * current.Keys && done == Edited(previous, current) - todo
        invariant EditedBy(previous, current, done, changes)
      {
        var k :| k in todo;
        todo := todo - {k};
        var before, now := previous[k], current[k];
        if before.hash != now.hash {
          EditStep(vault, previous, current, done, changes, k);
          done := done + {k};
          changes := changes + [Change(Modified, Some(before.path), Some(now.path), Some(now.hash), before.document)];
        }
      }
      assert done == Edited(previous, current);
    }

    /**
     The whole scan. Its file list and failures follow the listing, its other changes are the
     difference, each once. An ambiguous rename counts on both sides as new and as deleted.
     */
    method Scan(previous: Files, full: bool) returns (result: ScanResult)
      requires WellKeyed(vault, previous) && DistinctKeys(vault, disk.listing)
      ensures result.files == FilesOf(vault, previous, disk, full, |disk.listing|)
      ensures result.failures == FailuresOf(vault, previous, disk, full, |disk.listing|)
      ensures forall i :: 0 <= i < |disk.listing| ==>
        TakenIn(previous, disk, full, vault.pathKey(disk.listing[i].path), disk.listing[i], ByKey(result.files),
                result.failures)
      ensures Lists(result.changes, ChangeSet(previous, ByKey(result.files)))
      ensures forall k :: k in previous ==> OldIsReported(previous, ByKey(result.files), Elements(result.changes), k)
      ensures forall k :: k in ByKey(result.files) ==>
        NewIsReported(previous, ByKey(result.files), Elements(result.changes), k)
      ensures forall i :: 0 <= i < |disk.listing| ==> EditIsReported(previous, full, disk.listing[i], result.changes)
      ensures result.hashed == |HashedPlaces(vault, previous, disk, full, |disk.listing|)|
      ensures result.trusted == |TrustedPlaces(vault, previous, disk, full, |disk.listing|)|
      ensures result.bytes == TotalSize(result.files)
      ensures result.hashed + result.trusted == |result.files| && result.failed == |result.failures|
      ensures result.hashed + result.trusted + result.failed == |disk.listing|
      ensures var current := ByKey(result.files);
        && result.renamed == |RenameHashes(previous, current)|
        && result.modified == |Edited(previous, current)|
        && result.newCount == |Fresh(previous, current)| + |AmbiguousOld(previous, current, Gone(previous, current))|
        && result.deleted == |Gone(previous, current)| + |AmbiguousNew(previous, current, Fresh(previous, current))|
    {
      hide Ambiguous, Paired, Tallies, Lists, RemovedBy, AddedBy, EditedBy, ChangeSet, Gone, Fresh, Edited;
      hide RenameHashes;
      hide AmbiguousOld, AmbiguousNew, HashedPlaces, TrustedPlaces, TakenIn, OldIsReported, NewIsReported, EditIsReported;
      var files, failures, hashed, trusted, failed := Read(previous, full);
      var current := ByKey(files);
      FilesByKey(vault, previous, disk, full, |disk.listing|);
      var renames, oldKeys, newKeys, ambiguous := Renames(previous, current);
      var removals := Removals(previous, current, oldKeys, ambiguous);
      var additions := Additions(previous, current, newKeys, ambiguous);
      var edits := Modifications(previous, current);
      var changes := renames + removals + additions + edits;
      AllChanges(previous, current, renames, removals, additions, edits);
      AllAreReported(previous, current, changes);
      EditsAreReported(previous, full, files, failures, changes);
      var newCount := Count(changes, Created);
      var odd := Count(changes, AmbiguousRename);
      var deleted := Count(changes, Deleted);
      var modified := Count(changes, Modified);
      var renamed := Count(changes, Renamed);
      AllCounts(previous, current, renames, removals, additions, edits);
      var bytes := SumOfSizes(files);
      result := ScanResult(files, failures, changes, hashed, trusted, failed,
                           newCount + odd, modified, renamed, deleted + odd, bytes);
    }

    /** A readable file of another size or time, or any in a full scan, with another hash is reported as modified. */
    ghost predicate EditIsReported(previous: Files, full: bool, stat: FileStat, changes: seq<Change>) {
      var key := vault.pathKey(stat.path);
      key in previous && (full || previous[key].size != stat.size || previous[key].mtime != stat.mtime)
      && stat.path in disk.content && disk.content[stat.path] != previous[key].hash ==>
        Change(Modified, Some(previous[key].path), Some(stat.path), Some(disk.content[stat.path]), previous[key].document)
          in changes
    }

    lemma EditsAreReported(previous: Files, full: bool, files: seq<Snapshot>, failures: seq<Change>, changes: seq<Change>)
      requires forall i :: 0 <= i < |disk.listing| ==>
        TakenIn(previous, disk, full, vault.pathKey(disk.listing[i].path), disk.listing[i], ByKey(files), failures)
      requires forall k :: k in previous ==> OldIsReported(previous, ByKey(files), Elements(changes), k)
      ensures forall i :: 0 <= i < |disk.listing| ==> EditIsReported(previous, full, disk.listing[i], changes)
    {
      forall i | 0 <= i < |disk.listing|
        ensures EditIsReported(previous, full, disk.listing[i], changes)
      {
        var key := vault.pathKey(disk.listing[i].path);
        assert TakenIn(previous, disk, full, key, disk.listing[i], ByKey(files), failures);
        if key in previous {
          assert OldIsReported(previous, ByKey(files), Elements(changes), key);
        }
      }
    }

    method SumOfSizes(files: seq<Snapshot>) returns (bytes: nat)
      ensures bytes == TotalSize(files)
    {
      bytes := 0;
      for i := 0 to |files|
        invariant bytes == TotalSize(files[..i])
      {
        assert files[..i + 1][..i] == files[..i];
        bytes := bytes + files[i].size;
      }
      assert files[..|files|] == files;
    }

    method Count(changes: seq<Change>, kind: Kind) returns (count: nat)
      ensures count == CountKind(changes, kind)
    {
      count := 0;
      for i := 0 to |changes|
        invariant count == CountKind(changes[..i], kind)
      {
        assert changes[..i + 1][..i] == changes[..i];
        if changes[i].kind == kind {
          count := count + 1;
        }
      }
      assert changes[..|changes|] == changes;
    }
  }

  lemma AllAreReported(previous: Files, current: Files, changes: seq<Change>)
    requires Lists(changes, ChangeSet(previous, current))
    ensures forall k :: k in previous ==> OldIsReported(previous, current, Elements(changes), k)
    ensures forall k :: k in current ==> NewIsReported(previous, current, Elements(changes), k)
  {
    hide ChangeSet, OldIsReported, NewIsReported;
    forall k | k in previous
      ensures OldIsReported(previous, current, Elements(changes), k)
    {
      OldFilesAreReported(previous, current, k);
    }
    forall k | k in current
      ensures NewIsReported(previous, current, Elements(changes), k)
    {
      NewFilesAreReported(previous, current, k);
    }
  }

  lemma GoneAreDeparted(previous: Files, current: Files)
    ensures Gone(previous, current) <= Departed(previous, current) <= previous.Keys
  {
  }

  lemma FreshAreArrived(previous: Files, current: Files)
    ensures Fresh(previous, current) <= Arrived(previous, current) <= current.Keys
  {
  }

  // ---------- One round of each loop ----------

  ghost predicate RemovedBy(previous: Files, current: Files, done: set<Key>, changes: seq<Change>) {
    var odd := AmbiguousOld(previous, current, done);
    Lists(changes, ScanModel.Removals(previous, current, done)) && Tallies(changes, Deleted, |done| - |odd|, |odd|)
  }

  lemma OneMoreOddOld(previous: Files, current: Files, done: set<Key>, k: Key)
    requires k in previous && k !in done
    ensures var odd := AmbiguousOld(previous, current, done);
      && k !in odd
      && AmbiguousOld(previous, current, done + {k})
         == if Ambiguous(previous, current, previous[k].hash) then odd + {k} else odd
  {
    hide Ambiguous;
  }

  lemma OneMoreOddNew(previous: Files, current: Files, done: set<Key>, k: Key)
    requires k in current && k !in done
    ensures var odd := AmbiguousNew(previous, current, done);
      && k !in odd
      && AmbiguousNew(previous, current, done + {k})
         == if Ambiguous(previous, current, current[k].hash) then odd + {k} else odd
  {
    hide Ambiguous;
  }

  lemma RemovalsStart(previous: Files, current: Files)
    ensures RemovedBy(previous, current, {}, [])
  {
  }

  lemma RemovalStep(vault: Vault, previous: Files, current: Files, done: set<Key>, changes: seq<Change>, k: Key)
    requires WellKeyed(vault, previous) && done <= previous.Keys && k in previous && k !in done
    requires RemovedBy(previous, current, done, changes)
    ensures RemovedBy(previous, current, done + {k}, changes + [GoneOf(previous, current, k)])
  {
    var odd := AmbiguousOld(previous, current, done);
    OneMoreOddOld(previous, current, done, k);
    hide Ambiguous, Lists, Tallies, AmbiguousOld, ScanModel.Removals;
    OneMoreRemovals(vault, previous, current, done, k);
    ListsOneMore(changes, ScanModel.Removals(previous, current, done), GoneOf(previous, current, k));
    TallyOneMore(changes, Deleted, |done| - |odd|, |odd|, GoneOf(previous, current, k));
  }

  ghost predicate AddedBy(previous: Files, current: Files, done: set<Key>, changes: seq<Change>) {
    var odd := AmbiguousNew(previous, current, done);
    Lists(changes, ScanModel.Additions(previous, current, done)) && Tallies(changes, Created, |done| - |odd|, |odd|)
  }

  lemma AdditionsStart(previous: Files, current: Files)
    ensures AddedBy(previous, current, {}, [])
  {
  }

  lemma AdditionStep(vault: Vault, previous: Files, current: Files, done: set<Key>, changes: seq<Change>, k: Key)
    requires WellKeyed(vault, current) && done <= current.Keys && k in current && k !in done
    requires AddedBy(previous, current, done, changes)
    ensures AddedBy(previous, current, done + {k}, changes + [NewOf(previous, current, k)])
  {
    var odd := AmbiguousNew(previous, current, done);
    OneMoreOddNew(previous, current, done, k);
    hide Ambiguous, Lists, Tallies, AmbiguousNew, ScanModel.Additions;
    OneMoreAdditions(vault, previous, current, done, k);
    ListsOneMore(changes, ScanModel.Additions(previous, current, done), NewOf(previous, current, k));
    TallyOneMore(changes, Created, |done| - |odd|, |odd|, NewOf(previous, current, k));
  }

  ghost predicate EditedBy(previous: Files, current: Files, done: set<Key>, changes: seq<Change>) {
    Lists(changes, ScanModel.Edits(previous, current, done)) && Tallies(changes, Modified, |done|, 0)
  }

  lemma EditsStart(previous: Files, current: Files)
    ensures EditedBy(previous, current, {}, [])
  {
  }

  lemma EditStep(vault: Vault, previous: Files, current: Files, done: set<Key>, changes: seq<Change>, k: Key)
    requires WellKeyed(vault, previous) && WellKeyed(vault, current) && done <= previous.Keys * current.Keys
    requires k !in done && k in previous && k in current && EditedBy(previous, current, done, changes)
    ensures EditedBy(previous, current, done + {k}, changes + [EditOf(previous, current, k)])
  {
    hide Lists, Tallies, ScanModel.Edits;
    OneMoreEdits(vault, previous, current, done, k);
    ListsOneMore(changes, ScanModel.Edits(previous, current, done), EditOf(previous, current, k));
    TallyOneMore(changes, Modified, |done|, 0, EditOf(previous, current, k));
  }

  ghost predicate RenamedBy(previous: Files, current: Files, done: set<Hash>, changes: seq<Change>,
                            oldKeys: set<Key>, newKeys: set<Key>, ambiguous: set<Hash>) {
    && Lists(changes, ScanModel.Renames(previous, current, done))
    && Tallies(changes, Renamed, |done - ambiguous|, 0)
    && oldKeys == OldHalves(previous, current, done) && newKeys == NewHalves(previous, current, done)
    && ambiguous == set h | h in done && !Paired(previous, current, h)
  }

  lemma RenamesStart(previous: Files, current: Files)
    ensures RenamedBy(previous, current, {}, [], {}, {}, {})
  {
  }

  lemma RenameStep(previous: Files, current: Files, done: set<Hash>, changes: seq<Change>,
                   oldKeys: set<Key>, newKeys: set<Key>, ambiguous: set<Hash>, h: Hash)
    requires RenamedBy(previous, current, done, changes, oldKeys, newKeys, ambiguous) && h !in done
    ensures Paired(previous, current, h) ==>
      RenamedBy(previous, current, done + {h}, changes + [RenameOf(previous, current, h)],
                oldKeys + WithHash(previous, Departed(previous, current), h),
                newKeys + WithHash(current, Arrived(previous, current), h), ambiguous)
    ensures !Paired(previous, current, h) ==>
      RenamedBy(previous, current, done + {h}, changes, oldKeys, newKeys, ambiguous + {h})
  {
    hide Lists, Tallies, ScanModel.Renames, Paired, WithHash, OldHalves, NewHalves;
    OneMoreRename(previous, current, done, h);
    OneMoreHalf(previous, current, done, h);
    OneMoreAmbiguous(previous, current, done, ambiguous, h);
    if Paired(previous, current, h) {
      ListsOneMore(changes, ScanModel.Renames(previous, current, done), RenameOf(previous, current, h));
      TallyOneMore(changes, Renamed, |done - ambiguous|, 0, RenameOf(previous, current, h));
    }
  }

  lemma OneMoreAmbiguous(previous: Files, current: Files, done: set<Hash>, ambiguous: set<Hash>, h: Hash)
    requires ambiguous == (set g | g in done && !Paired(previous, current, g)) && h !in done
    ensures (set g | g in done + {h} && !Paired(previous, current, g))
      == if Paired(previous, current, h) then ambiguous else ambiguous + {h}
    ensures Paired(previous, current, h) ==>
      done + {h} - ambiguous == (done - ambiguous) + {h} && |done + {h} - ambiguous| == |done - ambiguous| + 1
    ensures !Paired(previous, current, h) ==> done + {h} - (ambiguous + {h}) == done - ambiguous
  {
    hide Paired;
  }

  lemma RenamesEnd(previous: Files, current: Files, done: set<Hash>, changes: seq<Change>,
                   oldKeys: set<Key>, newKeys: set<Key>, ambiguous: set<Hash>)
    requires RenamedBy(previous, current, done, changes, oldKeys, newKeys, ambiguous)
    requires done == Hashes(previous, Departed(previous, current)) * Hashes(current, Arrived(previous, current))
    ensures Lists(changes, ScanModel.Renames(previous, current, RenameHashes(previous, current)))
    ensures Tallies(changes, Renamed, |RenameHashes(previous, current)|, 0)
    ensures oldKeys == Departed(previous, current) - Gone(previous, current)
    ensures newKeys == Arrived(previous, current) - Fresh(previous, current)
    ensures forall h :: h in ambiguous <==> Ambiguous(previous, current, h)
  {
    hide Lists, Tallies;
    AllHalves(previous, current, done);
    SharedHashes(previous, current);
    hide Paired, WithHash, Hashes, Gone, Fresh, Ambiguous, OldHalves, NewHalves, ScanModel.Renames;
    assert done - ambiguous == RenameHashes(previous, current);
  }

  lemma OneMoreRemovals(vault: Vault, previous: Files, current: Files, done: set<Key>, k: Key)
    requires WellKeyed(vault, previous) && done <= previous.Keys && k in previous && k !in done
    ensures GoneOf(previous, current, k) !in ScanModel.Removals(previous, current, done)
    ensures ScanModel.Removals(previous, current, done + {k})
      == ScanModel.Removals(previous, current, done) + {GoneOf(previous, current, k)}
  {
    hide Ambiguous;
  }

  lemma OneMoreAdditions(vault: Vault, previous: Files, current: Files, done: set<Key>, k: Key)
    requires WellKeyed(vault, current) && done <= current.Keys && k in current && k !in done
    ensures NewOf(previous, current, k) !in ScanModel.Additions(previous, current, done)
    ensures ScanModel.Additions(previous, current, done + {k})
      == ScanModel.Additions(previous, current, done) + {NewOf(previous, current, k)}
  {
    hide Ambiguous;
  }

  lemma OneMoreEdits(vault: Vault, previous: Files, current: Files, done: set<Key>, k: Key)
    requires WellKeyed(vault, previous) && WellKeyed(vault, current)
    requires done <= previous.Keys * current.Keys && k in previous && k in current && k !in done
    ensures EditOf(previous, current, k) !in ScanModel.Edits(previous, current, done)
    ensures ScanModel.Edits(previous, current, done + {k})
      == ScanModel.Edits(previous, current, done) + {EditOf(previous, current, k)}
  {
  }

  lemma OneMoreRename(previous: Files, current: Files, done: set<Hash>, h: Hash)
    requires h !in done
    ensures Paired(previous, current, h) ==>
      && RenameOf(previous, current, h) !in ScanModel.Renames(previous, current, done)
      && ScanModel.Renames(previous, current, done + {h})
         == ScanModel.Renames(previous, current, done) + {RenameOf(previous, current, h)}
    ensures !Paired(previous, current, h) ==>
      ScanModel.Renames(previous, current, done + {h}) == ScanModel.Renames(previous, current, done)
  {
    hide Paired;
  }

  lemma HashesAreSeen(files: Files, keys: set<Key>, h: Hash)
    requires keys <= files.Keys
    ensures WithHash(files, keys, h) != {} ==> h in Hashes(files, keys)
  {
    if WithHash(files, keys, h) != {} {
      var k :| k in WithHash(files, keys, h);
      assert files[k].hash in Hashes(files, keys);
    }
  }

  function AmbiguousOld(previous: Files, current: Files, keys: set<Key>): set<Key> {
    set k | k in keys && k in previous && Ambiguous(previous, current, previous[k].hash)
  }

  function AmbiguousNew(previous: Files, current: Files, keys: set<Key>): set<Key> {
    set k | k in keys && k in current && Ambiguous(previous, current, current[k].hash)
  }

  /** Every change has the given kind or is ambiguous, in these numbers. */
  ghost predicate Tallies(changes: seq<Change>, kind: Kind, usual: int, odd: int) {
    forall k :: CountKind(changes, k) == if k == kind then usual else if k == AmbiguousRename then odd else 0
  }

  lemma TallyOneMore(changes: seq<Change>, kind: Kind, usual: int, odd: int, change: Change)
    requires Tallies(changes, kind, usual, odd) && kind != AmbiguousRename
    requires change.kind == kind || change.kind == AmbiguousRename
    ensures change.kind == kind ==> Tallies(changes + [change], kind, usual + 1, odd)
    ensures change.kind == AmbiguousRename ==> Tallies(changes + [change], kind, usual, odd + 1)
  {
    assert (changes + [change])[..|changes|] == changes;
  }

  lemma {:induction false} CountBoth(a: seq<Change>, b: seq<Change>, kind: Kind)
    ensures CountKind(a + b, kind) == CountKind(a, kind) + CountKind(b, kind)
  {
    if b == [] {
      assert a + b == a;
    } else {
      var b' := b[..|b| - 1];
      assert (a + b)[..|a + b| - 1] == a + b';
      CountBoth(a, b', kind);
    }
  }

  lemma AllChanges(previous: Files, current: Files, renames: seq<Change>, removals: seq<Change>,
                   additions: seq<Change>, edits: seq<Change>)
    requires Lists(renames, ScanModel.Renames(previous, current, RenameHashes(previous, current)))
    requires RemovedBy(previous, current, Gone(previous, current), removals)
    requires AddedBy(previous, current, Fresh(previous, current), additions)
    requires EditedBy(previous, current, Edited(previous, current), edits)
    ensures Lists(renames + removals + additions + edits, ChangeSet(previous, current))
  {
    hide Paired, Ambiguous, Lists, RenameHashes, Gone, Fresh, Edited;
    var a := ScanModel.Renames(previous, current, RenameHashes(previous, current));
    var b := ScanModel.Removals(previous, current, Gone(previous, current));
    var c := ScanModel.Additions(previous, current, Fresh(previous, current));
    var d := ScanModel.Edits(previous, current, Edited(previous, current));
    ListsBoth(renames, a, removals, b);
    ListsBoth(renames + removals, a + b, additions, c);
    ListsBoth(renames + removals + additions, a + b + c, edits, d);
  }

  lemma AllCounts(previous: Files, current: Files, renames: seq<Change>, removals: seq<Change>,
                  additions: seq<Change>, edits: seq<Change>)
    requires Tallies(renames, Renamed, |RenameHashes(previous, current)|, 0)
    requires RemovedBy(previous, current, Gone(previous, current), removals)
    requires AddedBy(previous, current, Fresh(previous, current), additions)
    requires EditedBy(previous, current, Edited(previous, current), edits)
    ensures var all := renames + removals + additions + edits;
      && CountKind(all, Renamed) == |RenameHashes(previous, current)|
      && CountKind(all, Modified) == |Edited(previous, current)|
      && CountKind(all, Created) + CountKind(all, AmbiguousRename)
         == |Fresh(previous, current)| + |AmbiguousOld(previous, current, Gone(previous, current))|
      && CountKind(all, Deleted) + CountKind(all, AmbiguousRename)
         == |Gone(previous, current)| + |AmbiguousNew(previous, current, Fresh(previous, current))|
  {
    forall kind
      ensures CountKind(renames + removals + additions + edits, kind)
        == CountKind(renames, kind) + CountKind(removals, kind) + CountKind(additions, kind) + CountKind(edits, kind)
    {
      CountBoth(renames, removals, kind);
      CountBoth(renames + removals, additions, kind);
      CountBoth(renames + removals + additions, edits, kind);
    }
  }

  /** The keys of the renames over the hashes done so far. */
  function OldHalves(previous: Files, current: Files, done: set<Hash>): set<Key> {
    set k | k in Departed(previous, current) && previous[k].hash in done && Paired(previous, current, previous[k].hash)
  }

  function NewHalves(previous: Files, current: Files, done: set<Hash>): set<Key> {
    set k | k in Arrived(previous, current) && current[k].hash in done && Paired(previous, current, current[k].hash)
  }

  lemma OneMoreHalf(previous: Files, current: Files, done: set<Hash>, h: Hash)
    ensures Paired(previous, current, h) ==>
      && OldHalves(previous, current, done + {h})
         == OldHalves(previous, current, done) + WithHash(previous, Departed(previous, current), h)
      && NewHalves(previous, current, done + {h})
         == NewHalves(previous, current, done) + WithHash(current, Arrived(previous, current), h)
    ensures !Paired(previous, current, h) ==>
      && OldHalves(previous, current, done + {h}) == OldHalves(previous, current, done)
      && NewHalves(previous, current, done + {h}) == NewHalves(previous, current, done)
  {
    hide Paired;
  }

  lemma PairIs(previous: Files, current: Files, h: Hash, gone: Key, come: Key)
    requires |WithHash(previous, Departed(previous, current), h)| == 1
    requires |WithHash(current, Arrived(previous, current), h)| == 1
    requires gone in WithHash(previous, Departed(previous, current), h)
    requires come in WithHash(current, Arrived(previous, current), h)
    ensures Paired(previous, current, h) && gone in previous && come in current
    ensures WithHash(previous, Departed(previous, current), h) == {gone}
    ensures WithHash(current, Arrived(previous, current), h) == {come}
    ensures RenameOf(previous, current, h)
      == Change(Renamed, Some(previous[gone].path), Some(current[come].path), Some(h), previous[gone].document)
  {
    OnlyIsUnique(WithHash(previous, Departed(previous, current), h), gone);
    OnlyIsUnique(WithHash(current, Arrived(previous, current), h), come);
  }

  lemma NotPaired(previous: Files, current: Files, h: Hash)
    requires |WithHash(previous, Departed(previous, current), h)| != 1
          || |WithHash(current, Arrived(previous, current), h)| != 1
    ensures !Paired(previous, current, h)
  {
  }

  lemma AllHalves(previous: Files, current: Files, done: set<Hash>)
    requires done == Hashes(previous, Departed(previous, current)) * Hashes(current, Arrived(previous, current))
    ensures OldHalves(previous, current, done) == Departed(previous, current) - Gone(previous, current)
    ensures NewHalves(previous, current, done) == Arrived(previous, current) - Fresh(previous, current)
    ensures ScanModel.Renames(previous, current, done)
      == ScanModel.Renames(previous, current, RenameHashes(previous, current))
  {
    SharedHashes(previous, current);
    hide Paired;
  }

  /** A hash with one deleted and one created file is shared; an ambiguous one is too. */
  lemma SharedHashes(previous: Files, current: Files)
    ensures forall h :: h in RenameHashes(previous, current) <==>
      && h in Hashes(previous, Departed(previous, current)) && h in Hashes(current, Arrived(previous, current))
      && Paired(previous, current, h)
    ensures forall h :: Ambiguous(previous, current, h) <==>
      && h in Hashes(previous, Departed(previous, current)) && h in Hashes(current, Arrived(previous, current))
      && !Paired(previous, current, h)
    ensures forall k :: k in Departed(previous, current) && Paired(previous, current, previous[k].hash) ==>
      previous[k].hash in RenameHashes(previous, current)
    ensures forall k :: k in Arrived(previous, current) && Paired(previous, current, current[k].hash) ==>
      current[k].hash in RenameHashes(previous, current)
  {
    forall h
      ensures h in Hashes(previous, Departed(previous, current)) <==> WithHash(previous, Departed(previous, current), h) != {}
    {
      if h in Hashes(previous, Departed(previous, current)) {
        var k :| k in Departed(previous, current) && previous[k].hash == h;
        assert k in WithHash(previous, Departed(previous, current), h);
      }
    }
    forall h
      ensures h in Hashes(current, Arrived(previous, current)) <==> WithHash(current, Arrived(previous, current), h) != {}
    {
      if h in Hashes(current, Arrived(previous, current)) {
        var k :| k in Arrived(previous, current) && current[k].hash == h;
        assert k in WithHash(current, Arrived(previous, current), h);
      }
    }
    forall h | Paired(previous, current, h)
      ensures WithHash(previous, Departed(previous, current), h) != {}
      ensures WithHash(current, Arrived(previous, current), h) != {}
    {
      var k := Only(WithHash(previous, Departed(previous, current), h));
      var j := Only(WithHash(current, Arrived(previous, current), h));
    }
  }
}
