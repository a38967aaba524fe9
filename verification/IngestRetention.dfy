/**
 Text of files that are gone: the derived rows of a document without a file state, the exact
 condition under which there are none, and a history in which there are.
 */
module IngestRetention {
  import opened Options
  import opened ScanModel
  import opened IngestModel
  import opened IngestHistory

  ghost predicate HasFile(db: Db, d: DocId) {
    exists k :: k in db.states && db.states[k].document == Some(d)
  }

  /** Every document with sections, blocks, chunks and links has a file state. */
  ghost predicate TextHasFile(db: Db) {
    forall v :: v in db.derived ==> HasFile(db, v.document)
  }

  // ---------- What a commit does to a document ----------

  lemma CommitKeepsFile(vault: Vault, db: Db, current: Files, now: Db, k: Key)
    requires WellKeyed(vault, current) && Applied(vault, db, current, now) && k in db.states
    requires k !in Gone(db.states, current)
    ensures HasFile(now, DocumentOf(db, k))
  {
    CommittedScanRecordsTheFiles(vault, db, current, now);
    hide StatesApplied, OldDocumentsApplied, NewDocumentsApplied, VersionsApplied, StatesOk;
    if k in current {
      assert now.states[k].document == Some(DocumentOf(db, k));
    } else {
      var j := Target(db.states, current, k).value;
      assert now.states[j].document == Some(DocumentOf(db, k));
    }
  }

  /** The rows of a removed file's document go with its current version. */
  lemma CommitDropsText(vault: Vault, db: Db, current: Files, now: Db, k: Key, v: VersionId)
    requires Applied(vault, db, current, now) && VersionsOk(db)
    requires k in Gone(db.states, current) && v.document == DocumentOf(db, k)
    ensures v !in now.derived
  {
    hide StatesApplied, OldDocumentsApplied, NewDocumentsApplied, WellKeyed;
    if v in db.derived {
      assert IsCurrent(db, v);
      assert k in Departed(db.states, current) && Target(db.states, current, k).None?;
      assert v in RetiredVersions(db, current, Departed(db.states, current));
    }
  }

  lemma CommitKeepsTextHasFile(vault: Vault, db: Db, current: Files, now: Db)
    requires WellKeyed(vault, current) && Applied(vault, db, current, now) && VersionsOk(db) && TextHasFile(db)
    ensures TextHasFile(now)
  {
    hide AppliedSoFar, VersionsOk, Gone;
    forall v | v in now.derived ensures HasFile(now, v.document) {
      DerivedBefore(vault, db, current, now, v);
      var k :| k in db.states && db.states[k].document == Some(v.document);
      if k in Gone(db.states, current) {
        CommitDropsText(vault, db, current, now, k, v);
      } else {
        CommitKeepsFile(vault, db, current, now, k);
      }
    }
  }

  lemma DerivedBefore(vault: Vault, db: Db, current: Files, now: Db, v: VersionId)
    requires Applied(vault, db, current, now) && v in now.derived
    ensures v in db.derived
  {
    hide StatesApplied, OldDocumentsApplied, NewDocumentsApplied, RetiredVersions;
  }

  // ---------- What each step does to text without a file ----------

  /**
   Scans and failures never leave text without a file; storing a version does exactly when its
   document has no file state.
   */
  lemma StepKeepsTextExactlyWhen(vault: Vault, s: Db, e: Event, t: Db)
    requires TablesOk(vault, s) && TextHasFile(s) && Step(vault, s, e, t)
    ensures TextHasFile(t) <==> (e.Store? ==> HasFile(s, e.version.document))
  {
    match e {
      case Scan(current) =>
        hide AppliedSoFar, Clash;
        if !Clash(s, current) {
          CommitKeepsTextHasFile(vault, s, current, t);
        }
      case Store(version) =>
        assert version in t.derived;
      case Fail(version) =>
    }
  }

  // ---------- What a run parses ----------

  /** The document of a file that the scan removes, which awaited parsing before. */
  ghost predicate AwaitedRemoval(db: Db, current: Files, d: DocId) {
    exists k :: k in Gone(db.states, current) && k in db.states && db.states[k].document == Some(d)
      && d in db.documents && (db.documents[d].lifecycle == InError || db.documents[d].current.None?)
  }

  /** A document that a committed scan schedules has no file then exactly when it awaited its removal. */
  lemma ScheduledHasFileExactlyWhen(vault: Vault, db: Db, current: Files, now: Db, s: ParseSource)
    requires WellKeyed(vault, current) && Applied(vault, db, current, now) && ToParse(db, current, now, s)
    ensures HasFile(now, s.document) <==> !AwaitedRemoval(db, current, s.document)
  {
    hide AppliedSoFar, Gone;
    var d := s.document;
    if AwaitedRemoval(db, current, d) {
      var k :| k in Gone(db.states, current) && k in db.states && db.states[k].document == Some(d);
      RemovedHasNoFile(vault, db, current, now, k);
    } else if PendingSource(db, current, s) {
      var k :| k in db.states && db.states[k].document == Some(d);
      CommitKeepsFile(vault, db, current, now, k);
    }
  }

  /** The scan before the i-th event. */
  function LastScan(events: seq<Event>, i: nat): (j: Option<nat>)
    requires i <= |events|
    ensures j.Some? ==> j.value < i && events[j.value].Scan? && forall m :: j.value < m < i ==> !events[m].Scan?
  {
    if i == 0 then None
    else if events[i - 1].Scan? then Some(i - 1)
    else LastScan(events, i - 1)
  }

  /** A version is stored or fails only if the last scan committed and scheduled it. */
  ghost predicate FromSchedule(states: seq<Db>, events: seq<Event>, i: nat)
    requires |states| == |events| + 1 && i < |events|
  {
    !events[i].Scan? ==>
      && LastScan(events, i).Some?
      && var j := LastScan(events, i).value;
      && !Clash(states[j], events[j].current)
      && exists s: ParseSource :: ToParse(states[j], events[j].current, states[j + 1], s)
           && events[i].version == VersionId(s.document, s.hash)
  }

  /** Any number of runs: each scans, and parses some of what its scan scheduled, in any order. */
  ghost predicate ServiceHistory(vault: Vault, states: seq<Db>, events: seq<Event>) {
    && History(vault, states, events)
    && forall i: nat :: i < |events| ==> FromSchedule(states, events, i)
  }

  /** The parse of a document succeeds whose file the scan of that run had removed. */
  ghost predicate StoresRemoved(states: seq<Db>, events: seq<Event>, i: nat)
    requires |states| == |events| + 1 && i < |events|
  {
    && events[i].Store? && LastScan(events, i).Some?
    && var j := LastScan(events, i).value;
    && AwaitedRemoval(states[j], events[j].current, events[i].version.document)
  }

  /** Parsing changes no file state. */
  lemma {:induction false} StatesSinceScan(vault: Vault, states: seq<Db>, events: seq<Event>, i: nat)
    requires History(vault, states, events) && i <= |events| && LastScan(events, i).Some?
    ensures states[i].states == states[LastScan(events, i).value + 1].states
  {
    if !events[i - 1].Scan? {
      StatesSinceScan(vault, states, events, i - 1);
      assert StepAt(vault, states, events, i - 1);
    }
  }

  lemma StoreHitsFileExactlyWhen(vault: Vault, states: seq<Db>, events: seq<Event>, i: nat)
    requires ServiceHistory(vault, states, events) && i < |events| && events[i].Store?
    ensures HasFile(states[i], events[i].version.document) <==> !StoresRemoved(states, events, i)
  {
    assert FromSchedule(states, events, i);
    var j := LastScan(events, i).value;
    var s: ParseSource :| ToParse(states[j], events[j].current, states[j + 1], s)
      && events[i].version == VersionId(s.document, s.hash);
    assert StepAt(vault, states, events, j);
    StatesSinceScan(vault, states, events, i);
    hide ToParse, AwaitedRemoval, Applied, WellKeyed, Clash, LastScan;
    ScheduledHasFileExactlyWhen(vault, states[j], events[j].current, states[j + 1], s);
  }

  /**
   Over any number of runs from tables in order, no text of a removed file is left if and only if no
   run stored the document of a file that its scan had removed while it still awaited parsing. One
   run is the case of one scan.
   */
  lemma {:induction false} RemovedTextIsGoneExactlyWhen(vault: Vault, states: seq<Db>, events: seq<Event>, n: nat)
    requires ServiceHistory(vault, states, events) && n <= |events|
    requires TablesOk(vault, states[0]) && TextHasFile(states[0])
    ensures TextHasFile(states[n]) <==> forall i: nat :: i < n ==> !StoresRemoved(states, events, i)
  {
    hide TablesOk, Step, TextHasFile, HasFile, StoresRemoved, FromSchedule;
    if n > 0 {
      RemovedTextIsGoneExactlyWhen(vault, states, events, n - 1);
      TablesKept(vault, states, events, n - 1);
      assert StepAt(vault, states, events, n - 1);
      if TextHasFile(states[n - 1]) {
        StepKeepsTextExactlyWhen(vault, states[n - 1], events[n - 1], states[n]);
        if events[n - 1].Store? {
          StoreHitsFileExactlyWhen(vault, states, events, n - 1);
        } else {
          OnlyStoresStore(states, events, n - 1);
        }
      } else {
        StepKeepsTextWithoutFile(vault, states[n - 1], events[n - 1], states[n]);
      }
    }
  }

  lemma OnlyStoresStore(states: seq<Db>, events: seq<Event>, i: nat)
    requires |states| == |events| + 1 && i < |events| && !events[i].Store?
    ensures !StoresRemoved(states, events, i)
  {
  }

  // ---------- Text that stays ----------

  /** No event gives a document without a file a file again, or takes its last text. */
  lemma StepKeepsFileless(vault: Vault, s: Db, e: Event, t: Db, d: DocId)
    requires Step(vault, s, e, t) && d in s.documents && !HasFile(s, d)
    ensures d in t.documents && !HasFile(t, d)
    ensures s.documents[d].current.Some? ==> t.documents[d].current.Some?
  {
    match e {
      case Scan(current) =>
        hide Clash;
        if !Clash(s, current) {
          CommitKeepsFileless(vault, s, current, t, d);
        }
      case Store(version) =>
      case Fail(version) =>
    }
  }

  lemma StepKeepsTextWithoutFile(vault: Vault, s: Db, e: Event, t: Db)
    requires TablesOk(vault, s) && !TextHasFile(s) && Step(vault, s, e, t)
    ensures !TextHasFile(t)
  {
    StepKeepsTables(vault, s, e, t);
    hide Step, HasFile, StatesOk, KeysUnique;
    var v :| v in s.derived && !HasFile(s, v.document);
    assert IsCurrent(s, v);
    StepKeepsFileless(vault, s, e, t, v.document);
    CurrentHasText(t, v.document);
    assert t.documents[v.document].current.value.document == v.document;
  }

  lemma CommitKeepsFileless(vault: Vault, db: Db, current: Files, now: Db, d: DocId)
    requires WellKeyed(vault, current) && Applied(vault, db, current, now) && d in db.documents && !HasFile(db, d)
    ensures d in now.documents && !HasFile(now, d) && now.documents[d] == db.documents[d]
  {
    hide NewDocumentsApplied, VersionsApplied, Target, Origin;
    forall k | k in db.states ensures DocumentOf(db, k) != d {
      assert db.states[k].document != Some(d);
    }
    forall k | k in now.states ensures now.states[k].document != Some(d) {
      NoNewFile(vault, db, current, now, d, k);
    }
  }

  lemma NoNewFile(vault: Vault, db: Db, current: Files, now: Db, d: DocId, k: Key)
    requires WellKeyed(vault, current) && Applied(vault, db, current, now) && d in db.documents && !HasFile(db, d)
    requires k in now.states
    ensures now.states[k].document != Some(d)
  {
    hide NewDocumentsApplied, VersionsApplied, OldDocumentsApplied, Target;
    if k in Arrived(db.states, current) && Origin(db.states, current, k).Some? {
      var source := Origin(db.states, current, k).value;
      OriginDeparts(db.states, current, k);
      assert db.states[source].document != Some(d);
    }
    hide Origin;
  }

  /**
   Once a document without a file has text, it has text in every later state: whatever is scanned,
   stored or fails, some version of it keeps its sections, blocks, chunks and links.
   */
  lemma {:induction false} RemovedTextStays(vault: Vault, states: seq<Db>, events: seq<Event>, i: nat, n: nat, d: DocId)
    requires History(vault, states, events) && states[0] == EMPTY && i <= n < |states|
    requires d in states[i].documents && !HasFile(states[i], d) && states[i].documents[d].current.Some?
    ensures d in states[n].documents && !HasFile(states[n], d) && states[n].documents[d].current.Some?
    ensures states[n].documents[d].current.value in states[n].derived
    decreases n
  {
    TablesAlways(vault, states, events, n);
    if i < n {
      RemovedTextStays(vault, states, events, i, n - 1, d);
      assert StepAt(vault, states, events, n - 1);
      hide TablesOk, HasFile;
      StepKeepsFileless(vault, states[n - 1], events[n - 1], states[n], d);
    }
    assert VersionsOk(states[n]);
    hide HasFile, History, StatesOk, KeysUnique;
    CurrentHasText(states[n], d);
  }

  lemma CurrentHasText(db: Db, d: DocId)
    requires VersionsOk(db) && d in db.documents && db.documents[d].current.Some?
    ensures db.documents[d].current.value in db.derived
  {
    var v := db.documents[d].current.value;
    assert v.document == d && IsCurrent(db, v);
  }

  // ---------- A history in which it happens ----------

  /** One file: it is found, its parse fails, a scan misses it, and it is parsed as scheduled. */
  function Found(file: Snapshot): Db {
    Db(map[file.key := Recorded(file, 0)], map[0 := Document(file.path, file.key, Active, None)], map[], {})
  }

  function Failed(file: Snapshot): Db {
    FailedParse(Found(file), VersionId(0, file.hash))
  }

  function Missed(file: Snapshot): Db {
    Db(map[], map[0 := Document(file.path, file.key, Removed, None)], map[], {})
  }

  function Parsed(file: Snapshot): Db {
    Stored(Missed(file), VersionId(0, file.hash))
  }

  lemma FileIsFound(vault: Vault, file: Snapshot)
    requires vault.pathKey(file.path) == file.key
    ensures Step(vault, EMPTY, Scan(map[file.key := file]), Found(file))
    ensures !Clash(EMPTY, map[file.key := file])
    ensures ToParse(EMPTY, map[file.key := file], Found(file), ParseSource(0, file.path, file.hash))
  {
    var current: Files := map[file.key := file];
    assert Arrived(EMPTY.states, current) == {file.key};
    assert Departed(EMPTY.states, current) == {} && Edited(EMPTY.states, current) == {};
    assert WithHash(EMPTY.states, {}, file.hash) == {};
    assert Origin(EMPTY.states, current, file.key).None?;
    hide Origin, Target;
    assert RetiredVersions(EMPTY, current, {}) == {};
    NewFileApplied(vault, file, Everything(EMPTY, current));
    assert file.key in current && file.key in Everything(EMPTY, current).came;
    assert ChangedSource(EMPTY, current, Everything(EMPTY, current), Found(file), ParseSource(0, file.path, file.hash));
  }

  lemma NewFileApplied(vault: Vault, file: Snapshot, done: Done)
    requires vault.pathKey(file.path) == file.key && done == Done({}, {file.key}, {})
    requires Origin(EMPTY.states, map[file.key := file], file.key).None?
    requires RetiredVersions(EMPTY, map[file.key := file], {}) == {}
    ensures AppliedSoFar(vault, EMPTY, map[file.key := file], done, Found(file))
  {
    hide Origin, Target, RetiredVersions;
  }

  lemma FileIsMissed(vault: Vault, file: Snapshot)
    requires vault.pathKey(file.path) == file.key
    ensures Step(vault, Failed(file), Scan(map[]), Missed(file)) && !Clash(Failed(file), map[])
    ensures ToParse(Failed(file), map[], Missed(file), ParseSource(0, file.path, file.hash))
    ensures file.key in Gone(Failed(file).states, map[])
  {
    var db, current: Files := Failed(file), map[];
    assert Departed(db.states, current) == {file.key};
    assert Arrived(db.states, current) == {} && Edited(db.states, current) == {};
    assert WithHash(current, {}, file.hash) == {};
    assert Target(db.states, current, file.key).None?;
    hide Origin, Target;
    assert RetiredVersions(db, current, {file.key}) == {};
    LostFileApplied(vault, file, Everything(db, current));
    hide AppliedSoFar;
    assert PendingSource(db, current, ParseSource(0, file.path, file.hash));
  }

  lemma LostFileApplied(vault: Vault, file: Snapshot, done: Done)
    requires vault.pathKey(file.path) == file.key && done == Done({file.key}, {}, {})
    requires Target(Failed(file).states, map[], file.key).None?
    requires RetiredVersions(Failed(file), map[], {file.key}) == {}
    ensures AppliedSoFar(vault, Failed(file), map[], done, Missed(file))
  {
    hide Origin, Target, RetiredVersions;
    var db, now, current: Files := Failed(file), Missed(file), map[];
    assert VersionsApplied(db, current, done, now);
    assert StatesApplied(db, current, done, now);
    assert OldDocumentsApplied(db, current, done, now);
  }

  lemma NothingIsFound(vault: Vault, db: Db)
    requires db.states == map[] && VersionsOk(db)
    ensures Step(vault, db, Scan(map[]), db)
  {
    var current: Files := map[];
    assert Departed(db.states, current) == {} && Arrived(db.states, current) == {} && Edited(db.states, current) == {};
    assert RetiredVersions(db, current, {}) == {};
    assert Applied(vault, db, current, db);
  }

  function States(file: Snapshot): seq<Db> {
    [EMPTY, Found(file), Failed(file), Missed(file), Parsed(file), Parsed(file)]
  }

  function Events(file: Snapshot): seq<Event> {
    var v := VersionId(0, file.hash);
    [Scan(map[file.key := file]), Fail(v), Scan(map[]), Store(v), Scan(map[])]
  }

  /**
   The scan that misses the file (deleted, or unreadable while it was hashed) schedules its document,
   which still awaited parsing; if that succeeds the document is active with a ready version and all
   its rows, no file state points to it, and the next scan changes nothing about that.
   */
  lemma RemovedTextCanStay(vault: Vault, file: Snapshot)
    requires vault.pathKey(file.path) == file.key
    ensures ServiceHistory(vault, States(file), Events(file)) && StoresRemoved(States(file), Events(file), 3)
    ensures var v := VersionId(0, file.hash);
      var last := Parsed(file);
      && last.states == map[] && 0 in last.documents && last.documents[0].lifecycle == Active
      && last.derived == {v} && v in last.versions && last.versions[v] == Ready && !TextHasFile(last)
  {
    TextWithoutFile(file);
    IsHistory(vault, file);
    IsScheduled(vault, file);
    hide FromSchedule, History;
    forall i: nat | i < |Events(file)| ensures FromSchedule(States(file), Events(file), i) {
      if i != 1 && i != 3 {
        OnlyParsesAreScheduled(file, i);
      }
    }
  }

  lemma IsHistory(vault: Vault, file: Snapshot)
    requires vault.pathKey(file.path) == file.key && VersionsOk(Parsed(file))
    ensures History(vault, States(file), Events(file))
  {
    hide Step, Found, Failed, Missed, Stored, VersionsOk;
    FileIsFound(vault, file);
    FileIsParsed(vault, file);
    FileIsMissed(vault, file);
    assert Parsed(file).states == map[] by { TextWithoutFile(file); }
    NothingIsFound(vault, Parsed(file));
    hide Parsed;
    forall i: nat | i < |Events(file)| ensures StepAt(vault, States(file), Events(file), i) {
    }
  }

  lemma IsScheduled(vault: Vault, file: Snapshot)
    requires vault.pathKey(file.path) == file.key
    ensures FromSchedule(States(file), Events(file), 1) && FromSchedule(States(file), Events(file), 3)
    ensures StoresRemoved(States(file), Events(file), 3)
  {
    assert LastScan(Events(file), 1) == Some(0) && LastScan(Events(file), 3) == Some(2);
    assert States(file)[0] == EMPTY && States(file)[1] == Found(file);
    assert States(file)[2] == Failed(file) && States(file)[3] == Missed(file);
    hide ToParse, Clash, Found, Failed, Missed, Parsed, Gone, States, LastScan, AwaitedRemoval;
    FileIsFound(vault, file);
    FileIsMissed(vault, file);
    FileAwaits(file);
  }

  lemma FileAwaits(file: Snapshot)
    requires file.key in Gone(Failed(file).states, map[])
    ensures AwaitedRemoval(Failed(file), map[], 0)
  {
    hide Gone;
    assert Failed(file).states[file.key].document == Some(0);
  }

  lemma OnlyParsesAreScheduled(file: Snapshot, i: nat)
    requires i < 5 && i != 1 && i != 3
    ensures FromSchedule(States(file), Events(file), i)
  {
  }

  lemma TextWithoutFile(file: Snapshot)
    ensures var v := VersionId(0, file.hash);
      var last := Parsed(file);
      && 0 in last.documents && last.documents[0].lifecycle == Active && last.documents[0].current == Some(v)
      && last.states == map[] && VersionsOk(last) && !TextHasFile(last)
      && last.derived == {v} && v in last.versions && last.versions[v] == Ready
  {
    var v := VersionId(0, file.hash);
    assert v in Parsed(file).derived && !HasFile(Parsed(file), 0);
  }

  lemma FileIsParsed(vault: Vault, file: Snapshot)
    ensures Step(vault, Found(file), Fail(VersionId(0, file.hash)), Failed(file))
    ensures Step(vault, Missed(file), Store(VersionId(0, file.hash)), Parsed(file))
  {
  }
}
