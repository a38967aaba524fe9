/**
 What committed scans achieve and what every history of scans, stores and failures keeps; where
 the tables get stuck.
 */
module IngestHistory {
  import opened Options
  import opened ScanModel
  import opened IngestModel
  import opened IngestSteps

  // ---------- One committed scan ----------

  /**
   After a committed scan the file states are the scanned files by key and hash; a file that stayed
   or moved keeps its document, a new one has a fresh document, and no document has two files.
   */
  lemma CommittedScanRecordsTheFiles(vault: Vault, db: Db, current: Files, now: Db)
    requires WellKeyed(vault, current) && Applied(vault, db, current, now)
    ensures now.states.Keys == current.Keys
    ensures forall k :: k in current ==> now.states[k].hash == current[k].hash
    ensures StatesOk(vault, now)
    ensures forall k :: k in current && k in db.states ==> now.states[k].document == db.states[k].document
    ensures forall k :: k in db.states && Target(db.states, current, k).Some? ==>
      var j := Target(db.states, current, k).value;
      j in now.states && now.states[j].document == db.states[k].document
    ensures forall k :: k in Fresh(db.states, current) ==> DocumentOf(now, k) !in db.documents
    ensures forall k, j :: k in now.states && j in now.states && now.states[k].document == now.states[j].document ==> k == j
  {
    CommittedStates(vault, db, current, now);
    CommittedDocuments(vault, db, current, now);
    StatesAreApart(vault, now);
    hide AppliedSoFar, StatesOk, Target, Fresh;
  }

  /**
   The effect of a commit, file by file. A file with its recorded hash is left as it was, its row and its document. An
   edited file's row and document take over what was found. A renamed file's document moves along. Any other new file
   gets a new active document without a version.
   */
  ghost predicate FileCommitted(db: Db, current: Files, now: Db, k: Key)
    requires k in current
  {
    && k in now.states && now.states[k].document.Some?
    && (var d := now.states[k].document.value;
        && d in now.documents
        && (k in db.states && db.states[k].hash == current[k].hash ==>
              now.states[k] == db.states[k] && d in db.documents && now.documents[d] == db.documents[d])
        && ((k in db.states ==> db.states[k].hash != current[k].hash) ==>
              now.states[k] == current[k].(document := Some(d)))
        && (k in db.states && db.states[k].hash != current[k].hash ==>
              && db.states[k].document == Some(d) && d in db.documents
              && now.documents[d] == db.documents[d].(lifecycle := Active, path := current[k].path, key := k))
        && (k !in db.states && d in db.documents ==>
              && now.documents[d] == db.documents[d].(path := current[k].path, key := k)
              && exists j :: j in db.states && j !in current && db.states[j].document == Some(d)
                   && db.states[j].hash == current[k].hash)
        && (k !in db.states && d !in db.documents ==>
              now.documents[d] == Document(current[k].path, k, Active, None)))
  }

  lemma CommitTakesEveryFile(vault: Vault, db: Db, current: Files, now: Db, k: Key)
    requires WellKeyed(vault, current) && Applied(vault, db, current, now) && k in current
    ensures FileCommitted(db, current, now, k)
  {
    StateIsSoundFor(vault, db, current, now, k);
    hide VersionsApplied, WellKeyed;
    if k in db.states {
      assert k in Everything(db, current).edited <==> db.states[k].hash != current[k].hash;
    } else if Origin(db.states, current, k).Some? {
      var source := Origin(db.states, current, k).value;
      OriginDeparts(db.states, current, k);
      RenamesAreOneToOne(db.states, current, source, k);
    }
    hide Origin, Target;
  }

  lemma StateIsSoundFor(vault: Vault, db: Db, current: Files, now: Db, k: Key)
    requires WellKeyed(vault, current) && Applied(vault, db, current, now) && k in current
    ensures k in now.states && now.states[k].document.Some? && DocumentOf(now, k) in now.documents
  {
    CommittedStates(vault, db, current, now);
    hide AppliedSoFar, WellKeyed;
  }

  /**
   A file that is gone and not renamed leaves a removed document without a current version; that version is superseded
   and has no rows.
   */
  lemma CommitRetiresTheRemoved(vault: Vault, db: Db, current: Files, now: Db, k: Key)
    requires WellKeyed(vault, current) && Applied(vault, db, current, now)
    requires k in db.states && k !in current
    requires forall j :: j in current && j !in db.states ==> now.states[j].document != db.states[k].document
    ensures db.states[k].document.Some?
    ensures var d := db.states[k].document.value;
      && d in db.documents && d in now.documents
      && now.documents[d] == db.documents[d].(lifecycle := Removed, current := None)
      && (db.documents[d].current.Some? ==>
            var v := db.documents[d].current.value;
            v !in now.derived && (v in now.versions ==> now.versions[v] == Superseded))
  {
    CommittedStates(vault, db, current, now);
    if Target(db.states, current, k).Some? {
      TargetArrives(db.states, current, k);
      RenamesAreOneToOne(db.states, current, k, Target(db.states, current, k).value);
    }
    hide Target, Origin, WellKeyed;
  }

  /** A version that does not lose its document is left as it was. */
  lemma CommitKeepsOtherVersions(vault: Vault, db: Db, current: Files, now: Db, v: VersionId)
    requires TablesOk(vault, db) && WellKeyed(vault, current) && Applied(vault, db, current, now)
    requires IsCurrent(db, v) ==> IsCurrent(now, v)
    ensures v in now.derived <==> v in db.derived
    ensures v in now.versions <==> v in db.versions
    ensures v in now.versions ==> now.versions[v] == db.versions[v]
  {
    hide StatesApplied, NewDocumentsApplied, WellKeyed, Target;
  }

  lemma CommittedStates(vault: Vault, db: Db, current: Files, now: Db)
    requires WellKeyed(vault, current) && Applied(vault, db, current, now)
    ensures now.states.Keys == current.Keys
    ensures forall k :: k in current ==> now.states[k].hash == current[k].hash
    ensures StatesOk(vault, now)
  {
    forall k | k in now.states
      ensures k in current && now.states[k].hash == current[k].hash && now.states[k].key == k
      ensures vault.pathKey(now.states[k].path) == k
      ensures now.states[k].document.Some? && DocumentOf(now, k) in now.documents
      ensures now.documents[DocumentOf(now, k)].key == k
    {
      StateIsSound(vault, db, current, now, k);
    }
    hide OldDocumentsApplied, NewDocumentsApplied, VersionsApplied, Origin;
    assert now.states.Keys == current.Keys;
  }

  lemma CommittedDocuments(vault: Vault, db: Db, current: Files, now: Db)
    requires Applied(vault, db, current, now) && now.states.Keys == current.Keys
    ensures forall k :: k in current && k in db.states ==> now.states[k].document == db.states[k].document
    ensures forall k :: k in db.states && Target(db.states, current, k).Some? ==>
      var j := Target(db.states, current, k).value;
      j in now.states && now.states[j].document == db.states[k].document
    ensures forall k :: k in Fresh(db.states, current) ==>
      k in now.states && now.states[k].document.Some? && DocumentOf(now, k) !in db.documents
  {
    hide OldDocumentsApplied, NewDocumentsApplied, VersionsApplied, WellKeyed;
    forall k | k in db.states && Target(db.states, current, k).Some?
      ensures var j := Target(db.states, current, k).value;
        j in now.states && now.states[j].document == db.states[k].document
    {
      TargetArrives(db.states, current, k);
      RenamesAreOneToOne(db.states, current, k, Target(db.states, current, k).value);
    }
    forall k | k in Fresh(db.states, current)
      ensures k in now.states && now.states[k].document.Some? && DocumentOf(now, k) !in db.documents
    {
      assert k in Everything(db, current).came && Origin(db.states, current, k).None?;
    }
  }

  lemma StatesAreApart(vault: Vault, db: Db)
    requires StatesOk(vault, db)
    ensures forall k, j :: k in db.states && j in db.states && db.states[k].document == db.states[j].document ==> k == j
  {
  }

  lemma StateIsSound(vault: Vault, db: Db, current: Files, now: Db, k: Key)
    requires WellKeyed(vault, current) && Applied(vault, db, current, now) && k in now.states
    ensures k in current && now.states[k].hash == current[k].hash && now.states[k].key == k
    ensures vault.pathKey(now.states[k].path) == k
    ensures now.states[k].document.Some? && DocumentOf(now, k) in now.documents
    ensures now.documents[DocumentOf(now, k)].key == k
  {
    hide VersionsApplied;
    if k !in db.states && Origin(db.states, current, k).Some? {
      var source := Origin(db.states, current, k).value;
      OriginDeparts(db.states, current, k);
      RenamesAreOneToOne(db.states, current, source, k);
    }
    hide Origin, Target;
  }

  lemma OriginDeparts(previous: Files, current: Files, k: Key)
    requires k in current && Origin(previous, current, k).Some?
    ensures Origin(previous, current, k).value in Departed(previous, current)
  {
  }

  /** A committed scan keeps path keys unique, since it only commits without a clash. */
  lemma CommitKeepsKeysUnique(vault: Vault, db: Db, current: Files, now: Db)
    requires WellKeyed(vault, current) && Applied(vault, db, current, now)
    requires KeysUnique(db) && !Clash(db, current)
    ensures KeysUnique(now)
  {
    forall d | d in now.documents
      ensures now.documents[d].key in now.states ==> DocumentOf(now, now.documents[d].key) == d
      ensures now.documents[d].key !in now.states ==> d in db.documents && db.documents[d].key == now.documents[d].key
    {
      KeyIsOwn(vault, db, current, now, d);
    }
    hide AppliedSoFar, Clash;
  }

  lemma KeyIsOwn(vault: Vault, db: Db, current: Files, now: Db, d: DocId)
    requires WellKeyed(vault, current) && Applied(vault, db, current, now) && d in now.documents
    requires KeysUnique(db) && !Clash(db, current)
    ensures now.documents[d].key in now.states ==>
      now.states[now.documents[d].key].document == Some(d)
    ensures now.documents[d].key !in now.states ==> d in db.documents && db.documents[d].key == now.documents[d].key
  {
    CommittedStates(vault, db, current, now);
    hide VersionsApplied, Origin;
    if d in db.documents {
      if k :| k in db.states && DocumentOf(db, k) == d {
        KeyOfFile(vault, db, current, now, k);
      } else {
        hide Target;
        KeyWithoutFile(vault, db, current, now, d);
      }
    }
    hide OldDocumentsApplied, Clash, Target;
  }

  lemma KeyOfFile(vault: Vault, db: Db, current: Files, now: Db, k: Key)
    requires WellKeyed(vault, current) && Applied(vault, db, current, now) && k in db.states
    requires now.states.Keys == current.Keys && !Clash(db, current)
    ensures var key := now.documents[DocumentOf(db, k)].key;
      && (key in now.states ==> now.states[key].document == db.states[k].document)
      && (key !in now.states ==> db.documents[DocumentOf(db, k)].key == key)
  {
    CommittedDocuments(vault, db, current, now);
    hide VersionsApplied, NewDocumentsApplied, StatesApplied, Clash, Origin;
    if Target(db.states, current, k).Some? {
      TargetArrives(db.states, current, k);
    }
    hide Target;
  }

  lemma KeyWithoutFile(vault: Vault, db: Db, current: Files, now: Db, d: DocId)
    requires Applied(vault, db, current, now) && now.states.Keys == current.Keys
    requires KeysUnique(db) && !Clash(db, current)
    requires d in db.documents && forall k :: k in db.states ==> DocumentOf(db, k) != d
    ensures d in now.documents && now.documents[d] == db.documents[d] && now.documents[d].key !in now.states
  {
    hide VersionsApplied, NewDocumentsApplied, StatesApplied, Target, Origin;
    var key := db.documents[d].key;
    assert key !in Arrived(db.states, current);
    assert key !in db.states;
  }

  lemma CommitKeepsVersions(vault: Vault, db: Db, current: Files, now: Db)
    requires Applied(vault, db, current, now) && VersionsOk(db)
    ensures VersionsOk(now)
  {
    hide StatesApplied, NewDocumentsApplied, Origin, WellKeyed;
    forall v
      ensures IsCurrent(now, v) <==> IsCurrent(db, v) && v !in RetiredVersions(db, current, Departed(db.states, current))
    {
      CurrentAfterCommit(vault, db, current, now, v);
    }
    hide OldDocumentsApplied, RetiredVersions;
    forall d | d in now.documents && now.documents[d].current.Some?
      ensures now.documents[d].current.value.document == d
    {
      OwnVersion(vault, db, current, now, d);
    }
  }

  lemma OwnVersion(vault: Vault, db: Db, current: Files, now: Db, d: DocId)
    requires Applied(vault, db, current, now) && VersionsOk(db)
    requires d in now.documents && now.documents[d].current.Some?
    ensures d in db.documents && now.documents[d].current == db.documents[d].current
  {
    hide Applied, VersionsOk;
    if d in db.documents {
      OldKeepsVersion(vault, db, current, now, d);
    } else {
      NewHasNoVersion(vault, db, current, now, d);
    }
  }

  lemma OldKeepsVersion(vault: Vault, db: Db, current: Files, now: Db, d: DocId)
    requires Applied(vault, db, current, now)
    requires d in db.documents && d in now.documents && now.documents[d].current.Some?
    ensures now.documents[d].current == db.documents[d].current
  {
    hide VersionsApplied, StatesApplied, NewDocumentsApplied, Target, WellKeyed;
    if k :| k in db.states && DocumentOf(db, k) == d {
    }
  }

  lemma NewHasNoVersion(vault: Vault, db: Db, current: Files, now: Db, d: DocId)
    requires Applied(vault, db, current, now) && d in now.documents && d !in db.documents
    ensures now.documents[d].current.None?
  {
    hide VersionsApplied, OldDocumentsApplied, Target, Origin, WellKeyed;
  }

  lemma CurrentAfterCommit(vault: Vault, db: Db, current: Files, now: Db, v: VersionId)
    requires Applied(vault, db, current, now) && VersionsOk(db)
    ensures IsCurrent(now, v) <==> IsCurrent(db, v) && v !in RetiredVersions(db, current, Departed(db.states, current))
  {
    hide VersionsApplied, WellKeyed, Origin;
    var d := v.document;
    if d in now.documents && now.documents[d].current == Some(v) {
      OwnVersion(vault, db, current, now, d);
    }
    if d in db.documents {
      if k :| k in db.states && DocumentOf(db, k) == d {
        if Target(db.states, current, k).Some? {
          TargetArrives(db.states, current, k);
        }
      }
    }
    hide Target;
  }

  // ---------- A second scan ----------

  /** Scanning the same readable vault again, no more thoroughly than before, reports nothing. */
  lemma SecondScanFindsNothing(vault: Vault, db: Db, disk: Disk, full: bool, again: bool, now: Db)
    requires StatesOk(vault, db) && DistinctKeys(vault, disk.listing) && (again ==> full)
    requires forall stat :: stat in disk.listing ==> stat.path in disk.content
    requires Applied(vault, db, ByKey(FilesOf(vault, db.states, disk, full, |disk.listing|)), now)
    ensures var second := ByKey(FilesOf(vault, now.states, disk, again, |disk.listing|));
      ChangeSet(now.states, second) == {}
    ensures FailuresOf(vault, now.states, disk, again, |disk.listing|) == []
  {
    var n := |disk.listing|;
    var current := ByKey(FilesOf(vault, db.states, disk, full, n));
    var second := ByKey(FilesOf(vault, now.states, disk, again, n));
    ListedKeys(vault, db.states, disk, full);
    ListedKeys(vault, now.states, disk, again);
    CommittedScanRecordsTheFiles(vault, db, current, now);
    hide FilesOf, ByKey, StatesOk, Applied, DistinctKeys, ChangeSet;
    forall k | k in second
      ensures second[k].hash == now.states[k].hash
    {
      FileAgain(vault, db, disk, full, again, now, k);
    }
    NoChangeExactlyWhen(now.states, second);
    AllReadable(vault, now.states, disk, again, n);
  }

  lemma ListedKeys(vault: Vault, previous: Files, disk: Disk, full: bool)
    requires DistinctKeys(vault, disk.listing) && forall stat :: stat in disk.listing ==> stat.path in disk.content
    ensures WellKeyed(vault, ByKey(FilesOf(vault, previous, disk, full, |disk.listing|)))
    ensures ByKey(FilesOf(vault, previous, disk, full, |disk.listing|)).Keys
      == set stat | stat in disk.listing :: vault.pathKey(stat.path)
  {
    FilesByKey(vault, previous, disk, full, |disk.listing|);
    hide FilesOf, ByKey, WellKeyed, DistinctKeys, SnapshotOf, MustHash;
    forall stat | stat in disk.listing
      ensures vault.pathKey(stat.path) in ByKey(FilesOf(vault, previous, disk, full, |disk.listing|))
    {
      var i :| 0 <= i < |disk.listing| && disk.listing[i] == stat;
    }
  }

  lemma FileAgain(vault: Vault, db: Db, disk: Disk, full: bool, again: bool, now: Db, k: Key)
    requires StatesOk(vault, db) && DistinctKeys(vault, disk.listing) && (again ==> full)
    requires forall stat :: stat in disk.listing ==> stat.path in disk.content
    requires Applied(vault, db, ByKey(FilesOf(vault, db.states, disk, full, |disk.listing|)), now)
    requires k in ByKey(FilesOf(vault, now.states, disk, again, |disk.listing|))
    ensures k in now.states
    ensures ByKey(FilesOf(vault, now.states, disk, again, |disk.listing|))[k].hash == now.states[k].hash
  {
    var n := |disk.listing|;
    var current := ByKey(FilesOf(vault, db.states, disk, full, n));
    FilesByKey(vault, db.states, disk, full, n);
    FilesByKey(vault, now.states, disk, again, n);
    CommittedScanRecordsTheFiles(vault, db, current, now);
    var i :| 0 <= i < n && vault.pathKey(disk.listing[i].path) == k;
    assert disk.listing[i] in disk.listing;
    assert StatesApplied(db, current, Everything(db, current), now);
    hide AppliedSoFar, FilesOf, FailuresOf, ByKey, WellKeyed, StatesApplied, DistinctKeys, TakenIn;
    SameHashAgain(db, current, disk, full, again, now, k, disk.listing[i],
                  FailuresOf(vault, db.states, disk, full, n), ByKey(FilesOf(vault, now.states, disk, again, n)),
                  FailuresOf(vault, now.states, disk, again, n));
  }

  lemma SameHashAgain(db: Db, current: Files, disk: Disk, full: bool, again: bool, now: Db, k: Key, stat: FileStat,
                      failures: seq<Change>, second: Files, failures': seq<Change>)
    requires forall k :: k in db.states ==> db.states[k].document.Some?
    requires StatesApplied(db, current, Everything(db, current), now) && (again ==> full)
    requires stat.path in disk.content && TakenIn(db.states, disk, full, k, stat, current, failures)
    requires TakenIn(now.states, disk, again, k, stat, second, failures')
    requires k in now.states && k in second && now.states[k].hash == current[k].hash
    ensures second[k].hash == now.states[k].hash
  {
    hide Origin;
  }

  lemma {:induction false} AllReadable(vault: Vault, previous: Files, disk: Disk, full: bool, n: nat)
    requires n <= |disk.listing|
    requires forall stat :: stat in disk.listing ==> stat.path in disk.content
    ensures FailuresOf(vault, previous, disk, full, n) == []
  {
    if n > 0 {
      assert disk.listing[n - 1] in disk.listing;
      AllReadable(vault, previous, disk, full, n - 1);
    }
  }

  // ---------- Histories ----------

  /** A scan commits or changes nothing; a parse stores a version or fails; a crash loses nothing. */
  datatype Event = Scan(current: Files) | Store(version: VersionId) | Fail(version: VersionId)

  ghost predicate Step(vault: Vault, s: Db, e: Event, t: Db) {
    match e
    case Scan(current) =>
      WellKeyed(vault, current) && (if Clash(s, current) then t == s else Applied(vault, s, current, t))
    case Store(version) => version.document in s.documents && t == Stored(s, version)
    case Fail(version) => t == FailedParse(s, version)
  }

  ghost predicate History(vault: Vault, states: seq<Db>, events: seq<Event>) {
    && |states| == |events| + 1
    && forall i :: 0 <= i < |events| ==> StepAt(vault, states, events, i)
  }

  ghost predicate StepAt(vault: Vault, states: seq<Db>, events: seq<Event>, i: nat)
    requires |states| == |events| + 1 && i < |events|
  {
    Step(vault, states[i], events[i], states[i + 1])
  }

  const EMPTY := Db(map[], map[], map[], {})

  lemma StepKeepsTables(vault: Vault, s: Db, e: Event, t: Db)
    requires TablesOk(vault, s) && Step(vault, s, e, t)
    ensures TablesOk(vault, t)
  {
    match e {
      case Scan(current) =>
        hide AppliedSoFar, KeysUnique, VersionsOk, Clash, StatesOk;
        if !Clash(s, current) {
          CommittedScanRecordsTheFiles(vault, s, current, t);
          CommitKeepsKeysUnique(vault, s, current, t);
          CommitKeepsVersions(vault, s, current, t);
        }
      case Store(version) =>
        StoreKeepsVersions(vault, s, version);
      case Fail(version) =>
        FailKeepsTables(vault, s, version);
    }
  }

  lemma FailKeepsTables(vault: Vault, s: Db, v: VersionId)
    requires TablesOk(vault, s)
    ensures TablesOk(vault, FailedParse(s, v))
  {
    hide WellKeyed;
    assert forall w :: IsCurrent(FailedParse(s, v), w) <==> IsCurrent(s, w);
  }

  lemma CurrentAfterStore(s: Db, v: VersionId, w: VersionId)
    requires v.document in s.documents
    ensures IsCurrent(Stored(s, v), w) <==> w == v || (w.document != v.document && IsCurrent(s, w))
  {
  }

  lemma StoreKeepsVersions(vault: Vault, s: Db, v: VersionId)
    requires TablesOk(vault, s) && v.document in s.documents
    ensures TablesOk(vault, Stored(s, v))
  {
    hide WellKeyed;
    var t := Stored(s, v);
    assert VersionsOk(t) by {
      hide StatesOk, KeysUnique;
      forall w
        ensures w in t.derived <==> IsCurrent(t, w)
        ensures IsCurrent(t, w) ==> w in t.versions && (t.versions[w] == Ready || t.versions[w] == VersionFailed)
        ensures w in t.versions && t.versions[w] == Ready ==> IsCurrent(t, w)
      {
        CurrentAfterStore(s, v, w);
        StoredVersion(s, v, w);
      }
    }
  }

  lemma StoredVersion(s: Db, v: VersionId, w: VersionId)
    requires VersionsOk(s) && v.document in s.documents
    ensures var t := Stored(s, v);
      && (w in t.derived <==> w == v || (w.document != v.document && IsCurrent(s, w)))
      && (w == v ==> w in t.versions && t.versions[w] == Ready)
      && (w.document != v.document ==> (w in t.versions <==> w in s.versions))
      && (w.document != v.document && w in s.versions ==> t.versions[w] == s.versions[w])
      && (w != v && w.document == v.document && w in t.versions ==> t.versions[w] != Ready)
  {
  }

  lemma {:induction false} TablesKept(vault: Vault, states: seq<Db>, events: seq<Event>, n: nat)
    requires History(vault, states, events) && TablesOk(vault, states[0]) && n < |states|
    ensures TablesOk(vault, states[n])
  {
    hide TablesOk, Step;
    if n > 0 {
      TablesKept(vault, states, events, n - 1);
      assert StepAt(vault, states, events, n - 1);
      StepKeepsTables(vault, states[n - 1], events[n - 1], states[n]);
    }
  }

  /**
   In every history from empty tables, sections, blocks, chunks and links exist exactly for the
   current versions, a ready version is current, and the file states stay in step with documents.
   */
  lemma TablesAlways(vault: Vault, states: seq<Db>, events: seq<Event>, n: nat)
    requires History(vault, states, events) && states[0] == EMPTY && n < |states|
    ensures TablesOk(vault, states[n])
  {
    hide TablesOk, History;
    EmptyIsOk(vault);
    TablesKept(vault, states, events, n);
  }

  lemma EmptyIsOk(vault: Vault)
    ensures TablesOk(vault, EMPTY)
  {
  }

  /** A superseded version leaves no rows behind. */
  lemma SupersededTextIsGone(vault: Vault, states: seq<Db>, events: seq<Event>, n: nat, v: VersionId)
    requires History(vault, states, events) && states[0] == EMPTY && n < |states|
    requires v in states[n].versions && states[n].versions[v] == Superseded
    ensures v !in states[n].derived
  {
    TablesAlways(vault, states, events, n);
  }

  // ---------- A path that comes back ----------

  /** A document without a file holds the path key. */
  ghost predicate Orphaned(db: Db, k: Key) {
    k !in db.states && KeyTaken(db.documents, k)
  }

  /** Deleting a file, or failing to read it once, leaves its path key with a document without a file. */
  lemma DeletionOrphansTheKey(vault: Vault, db: Db, current: Files, now: Db, k: Key)
    requires WellKeyed(vault, current) && Applied(vault, db, current, now) && k in Gone(db.states, current)
    ensures Orphaned(now, k)
  {
    CommittedScanRecordsTheFiles(vault, db, current, now);
    hide VersionsApplied, NewDocumentsApplied, StatesApplied;
    assert now.documents[DocumentOf(db, k)].key == k;
  }

  /**
   Once a path key is orphaned, no scan that finds a file under it ever commits again: whatever is
   parsed or fails meanwhile, the file states stay as they are.
   */
  lemma {:induction false} OrphanedKeyBlocksEveryScan(vault: Vault, states: seq<Db>, events: seq<Event>, k: Key, n: nat)
    requires History(vault, states, events) && n < |states| && Orphaned(states[0], k)
    requires forall i :: 0 <= i < n && events[i].Scan? ==> k in events[i].current
    ensures Orphaned(states[n], k) && states[n].states == states[0].states
  {
    if n > 0 {
      OrphanedKeyBlocksEveryScan(vault, states, events, k, n - 1);
      assert StepAt(vault, states, events, n - 1);
      BlockedStep(vault, states[n - 1], events[n - 1], states[n], k);
    }
  }

  lemma BlockedStep(vault: Vault, s: Db, e: Event, t: Db, k: Key)
    requires Step(vault, s, e, t) && Orphaned(s, k) && (e.Scan? ==> k in e.current)
    ensures Orphaned(t, k) && t.states == s.states
  {
    hide Applied;
    var d :| d in s.documents && s.documents[d].key == k;
    match e {
      case Scan(current) =>
        assert k in Arrived(s.states, current);
        assert Clash(s, current);
      case Store(version) =>
        assert t.documents[d].key == k;
      case Fail(version) =>
        assert t.documents[d].key == k;
    }
  }

  // ---------- Parsing after a scan ----------

  /**
   What is parsed after a scan: a file whose hash is another one than recorded, a file of a document that did not exist,
   and a recorded file of the same hash, moved or gone, whose document was in error or had no current version.
   */
  ghost predicate NeedsParsing(db: Db, current: Files, states: Files, s: ParseSource) {
    || (exists k :: k in current && k in states && states[k].document == Some(s.document)
          && s.path == current[k].path && s.hash == current[k].hash
          && if k in db.states then db.states[k].hash != current[k].hash else s.document !in db.documents)
    || (exists k :: k in db.states && db.states[k].document == Some(s.document)
          && s.path == db.states[k].path && s.hash == db.states[k].hash
          && (k in current ==> db.states[k].hash == current[k].hash)
          && s.document in db.documents
          && (db.documents[s.document].lifecycle == InError || db.documents[s.document].current.None?))
  }

  lemma ScheduledExactlyWhen(vault: Vault, db: Db, current: Files, now: Db, s: ParseSource)
    requires WellKeyed(vault, current) && Applied(vault, db, current, now)
    ensures ToParse(db, current, now, s) <==> NeedsParsing(db, current, now.states, s)
  {
    hide OldDocumentsApplied, NewDocumentsApplied, VersionsApplied;
    CommittedStates(vault, db, current, now);
    forall k | k in current && k !in db.states
      ensures k in now.states && now.states[k].document.Some?
      ensures Origin(db.states, current, k).None? <==> DocumentOf(now, k) !in db.documents
    {
      if Origin(db.states, current, k).Some? {
        OriginDeparts(db.states, current, k);
      }
    }
    hide Origin, StatesApplied;
    assert ChangedSource(db, current, Everything(db, current), now, s) <==>
      exists k :: k in current && k in now.states && now.states[k].document == Some(s.document)
        && s.path == current[k].path && s.hash == current[k].hash
        && if k in db.states then db.states[k].hash != current[k].hash else s.document !in db.documents;
  }

  /** No document is scheduled for two texts, and every scheduled document exists. */
  lemma ScheduledOnce(vault: Vault, db: Db, current: Files, now: Db, s: ParseSource, t: ParseSource)
    requires WellKeyed(vault, current) && Applied(vault, db, current, now)
    requires NeedsParsing(db, current, now.states, s) && NeedsParsing(db, current, now.states, t)
    requires s.document == t.document
    ensures s == t && s.document in now.documents
  {
    CommittedScanRecordsTheFiles(vault, db, current, now);
    OldDocumentsStay(vault, db, current, now);
    StatesAreApart(vault, db);
    hide AppliedSoFar, Target, Fresh, WellKeyed;
    assert StatesOk(vault, now) && now.states.Keys == current.Keys;
    NeededFromOneFile(vault, db, current, now, s);
    NeededFromOneFile(vault, db, current, now, t);
    hide NeedsParsing;
  }

  /** The file behind a scheduled text: its document's file before the scan, if it had one, and the new one otherwise. */
  lemma NeededFromOneFile(vault: Vault, db: Db, current: Files, now: Db, s: ParseSource)
    requires StatesOk(vault, db) && StatesOk(vault, now) && now.states.Keys == current.Keys
    requires forall d :: d in db.documents ==> d in now.documents
    requires forall k :: k in current && k in db.states ==> now.states[k].document == db.states[k].document
    requires NeedsParsing(db, current, now.states, s)
    ensures s.document in now.documents
    ensures forall k :: k in db.states && db.states[k].document == Some(s.document) ==>
      var file := if k in current && current[k].hash != db.states[k].hash then current[k] else db.states[k];
      s.path == file.path && s.hash == file.hash
    ensures forall k :: k in now.states && now.states[k].document == Some(s.document) && s.document !in db.documents ==>
      s.path == current[k].path && s.hash == current[k].hash
    ensures s.document in db.documents ==> exists k :: k in db.states && db.states[k].document == Some(s.document)
    ensures s.document !in db.documents ==> exists k :: k in now.states && now.states[k].document == Some(s.document)
  {
  }

  lemma OldDocumentsStay(vault: Vault, db: Db, current: Files, now: Db)
    requires Applied(vault, db, current, now)
    ensures StatesOk(vault, db) && forall d :: d in db.documents ==> d in now.documents
  {
    hide StatesApplied, NewDocumentsApplied, VersionsApplied, WellKeyed;
    forall d | d in db.documents
      ensures d in now.documents
    {
      if k :| k in db.states && DocumentOf(db, k) == d {
      }
    }
  }

  /** Every document with a file that still awaits parsing is scheduled by the committed scan. */
  lemma PendingDocumentsAreScheduled(vault: Vault, db: Db, current: Files, now: Db, k: Key)
    requires WellKeyed(vault, current) && Applied(vault, db, current, now) && k in now.states
    requires DocumentOf(now, k) in now.documents
    requires var doc := now.documents[DocumentOf(now, k)]; doc.lifecycle == InError || doc.current.None?
    ensures exists s: ParseSource :: s.document == DocumentOf(now, k) && ToParse(db, current, now, s)
  {
    CommittedStates(vault, db, current, now);
    CommittedDocuments(vault, db, current, now);
    var d := DocumentOf(now, k);
    if k in Edited(db.states, current) || (k !in db.states && Origin(db.states, current, k).None?) {
      hide VersionsApplied, NewDocumentsApplied, OldDocumentsApplied;
      assert ToParse(db, current, now, ParseSource(d, current[k].path, current[k].hash));
    } else {
      var source := if k in db.states then k else Origin(db.states, current, k).value;
      if k !in db.states {
        OriginDeparts(db.states, current, k);
      }
      hide Pending;
      KeptAwaitsAsBefore(vault, db, current, now, k, source);
      assert ToParse(db, current, now, ParseSource(d, db.states[source].path, db.states[source].hash));
    }
  }

  /** A file that stayed or moved keeps its document, which awaits parsing exactly if it did before. */
  lemma KeptAwaitsAsBefore(vault: Vault, db: Db, current: Files, now: Db, k: Key, source: Key)
    requires Applied(vault, db, current, now) && k in current && k in now.states && source in db.states
    requires || (k == source && k !in Edited(db.states, current))
             || (k !in db.states && Origin(db.states, current, k) == Some(source))
    ensures now.states[k].document == db.states[source].document && DocumentOf(db, source) in now.documents
    ensures Pending(now.documents[DocumentOf(db, source)]) <==> Pending(db.documents[DocumentOf(db, source)])
    ensures source !in Edited(db.states, current)
  {
    hide VersionsApplied, NewDocumentsApplied, WellKeyed;
    if k != source {
      OriginDeparts(db.states, current, k);
      RenamesAreOneToOne(db.states, current, source, k);
    }
    hide Origin;
  }

  /**
   The document of a removed file is scheduled exactly when it awaited parsing before the scan, and
   then under the path that is gone.
   */
  lemma RemovedIsScheduledExactlyWhen(vault: Vault, db: Db, current: Files, now: Db, k: Key)
    requires WellKeyed(vault, current) && Applied(vault, db, current, now) && k in Gone(db.states, current)
    ensures var doc := db.documents[DocumentOf(db, k)];
      (exists s: ParseSource :: s.document == DocumentOf(db, k) && ToParse(db, current, now, s))
        <==> doc.lifecycle == InError || doc.current.None?
    ensures (exists s: ParseSource :: s.document == DocumentOf(db, k) && ToParse(db, current, now, s)) ==>
      ToParse(db, current, now, ParseSource(DocumentOf(db, k), db.states[k].path, db.states[k].hash))
  {
    CommittedScanRecordsTheFiles(vault, db, current, now);
    hide VersionsApplied, NewDocumentsApplied, OldDocumentsApplied, Origin, Target;
    if Pending(db.documents[DocumentOf(db, k)]) {
      assert PendingSource(db, current, ParseSource(DocumentOf(db, k), db.states[k].path, db.states[k].hash));
    }
    if s: ParseSource :| s.document == DocumentOf(db, k) && ChangedSource(db, current, Everything(db, current), now, s) {
      RemovedHasNoFile(vault, db, current, now, k);
    }
  }

  /** A removed file's document has no file after the scan. */
  lemma RemovedHasNoFile(vault: Vault, db: Db, current: Files, now: Db, k: Key)
    requires WellKeyed(vault, current) && Applied(vault, db, current, now) && k in Gone(db.states, current)
    ensures forall j :: j in now.states ==> now.states[j].document != Some(DocumentOf(db, k))
  {
    CommittedScanRecordsTheFiles(vault, db, current, now);
    hide VersionsApplied, NewDocumentsApplied, StatesApplied, Origin;
    assert now.documents[DocumentOf(db, k)].key == k;
  }

  // ---------- A document that returns to an earlier text ----------

  /**
   A document whose text goes from A to B and back has the same version, and so the same chunk ids,
   before and after, but not in between.
   */
  lemma RevertBringsBackTheVersion(db: Db, d: DocId, a: Hash, b: Hash)
    requires d in db.documents && a != b && VersionsOk(db)
    ensures var first := Stored(db, VersionId(d, a));
      var second := Stored(first, VersionId(d, b));
      var third := Stored(second, VersionId(d, a));
      && VersionId(d, a) in first.derived && VersionId(d, a) !in second.derived && VersionId(d, a) in third.derived
      && third.derived == first.derived
  {
    var first := Stored(db, VersionId(d, a));
    var second := Stored(first, VersionId(d, b));
    assert forall v :: v in first.derived && v.document == d ==> v == VersionId(d, a);
    assert second.derived == first.derived - {VersionId(d, a)} + {VersionId(d, b)};
  }
}
