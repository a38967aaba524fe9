/** One ingest run: scan the vault, apply the difference, then parse what needs parsing. */
module IngestService {
  import opened Options
  import opened ScanModel
  import opened Scanner
  import opened IngestModel
  import opened IngestHistory
  import opened IngestRetention
  import opened IngestStore

  /** `parses` tells which scheduled texts can be read, parsed and chunked. */
  class VaultIngestService {
    const store: PostgresIngestStore
    const scanner: VaultScanner
    const parses: ParseSource -> bool

    constructor (vault: Vault, disk: Disk, parses: ParseSource -> bool)
      ensures fresh(store) && store.View() == EMPTY && store.vault == vault
      ensures scanner.vault == vault && scanner.disk == disk && this.parses == parses
    {
      store := new PostgresIngestStore(vault);
      scanner := new VaultScanner(vault, disk);
      this.parses := parses;
    }

    /** Reads, parses and stores one document, or marks it as failed. */
    method Parse(source: ParseSource, ghost now: Db) returns (parsed: bool)
      requires TablesOk(store.vault, store.View()) && store.states == now.states
      requires source.document in store.documents
      modifies store
      ensures TablesOk(store.vault, store.View()) && store.states == now.states
      ensures store.documents.Keys == old(store.documents.Keys)
      ensures parsed <==> parses(source)
      ensures Ends(source, store.View())
      ensures forall s: ParseSource :: s.document != source.document && Ends(s, old(store.View())) ==> Ends(s, store.View())
      ensures TextHasFile(store.View()) <==>
        old(TextHasFile(store.View())) && (parsed ==> HasFile(now, source.document))
    {
      hide TablesOk, Stored, FailedParse, TextHasFile, HasFile;
      ghost var before := store.View();
      ghost var version := VersionId(source.document, source.hash);
      parsed := parses(source);
      if parsed {
        var found := store.StoreDocument(source);
        StepKeepsTables(store.vault, before, Event.Store(version), store.View());
        ParseKeepsText(store.vault, before, Event.Store(version), store.View(), now);
        OthersKeepTheirVersion(store.vault, before, version, store.View());
        return;
      }
      store.MarkDocumentFailed(source.document, source.hash);
      StepKeepsTables(store.vault, before, Event.Fail(version), store.View());
      ParseKeepsText(store.vault, before, Event.Fail(version), store.View(), now);
    }

    /** How a scheduled text ends: as its document's ready, current version with rows, or with the document in error. */
    ghost predicate Ends(s: ParseSource, db: Db) {
      var v := VersionId(s.document, s.hash);
      && s.document in db.documents
      && if parses(s) then
           && db.documents[s.document].current == Some(v) && db.documents[s.document].lifecycle == Active
           && v in db.versions && db.versions[v] == Ready && v in db.derived
         else db.documents[s.document].lifecycle == InError
    }

    /** Every text is attempted, and each ends as it parses. */
    method ParseAll(toParse: seq<ParseSource>, ghost now: Db) returns (parsed: nat, failed: nat)
      requires TablesOk(store.vault, store.View()) && store.View() == now
      requires forall s, t :: s in toParse && t in toParse && s.document == t.document ==> s == t
      requires forall s :: s in toParse ==> s.document in now.documents
      modifies store
      ensures TablesOk(store.vault, store.View()) && store.states == now.states
      ensures forall s :: s in toParse ==> Ends(s, store.View())
      ensures parsed == 0 <==> forall s :: s in toParse ==> !parses(s)
      ensures failed == 0 <==> forall s :: s in toParse ==> parses(s)
      ensures TextHasFile(store.View()) <==>
        TextHasFile(now) && forall s :: s in toParse && parses(s) ==> HasFile(now, s.document)
    {
      hide TablesOk, TextHasFile, HasFile, Ends;
      parsed, failed := 0, 0;
      for i := 0 to |toParse|
        invariant TablesOk(store.vault, store.View()) && store.states == now.states
        invariant store.documents.Keys == now.documents.Keys
        invariant forall s :: s in toParse[..i] ==> Ends(s, store.View())
        invariant parsed == 0 <==> forall s :: s in toParse[..i] ==> !parses(s)
        invariant failed == 0 <==> forall s :: s in toParse[..i] ==> parses(s)
        invariant TextHasFile(store.View()) <==>
          TextHasFile(now) && forall s :: s in toParse[..i] && parses(s) ==> HasFile(now, s.document)
      {
        assert toParse[i] in toParse;
        assert toParse[..i + 1] == toParse[..i] + [toParse[i]];
        var ok := Parse(toParse[i], now);
        if ok {
          parsed := parsed + 1;
        } else {
          failed := failed + 1;
        }
      }
      assert toParse[..|toParse|] == toParse;
    }

    /**
     The run keeps the tables in order. Unless it aborts or only measures, the file states end up as the files found, by
     key and hash, and every text that needs parsing is attempted: those that parse are ready and current afterwards, and
     the documents of the others are in error. Text without a file is left exactly if a document was stored whose file
     was removed while it still awaited parsing.
     */
    method Scan(measure: bool, full: bool) returns (committed: bool, parsed: nat, failed: nat)
      requires store.vault == scanner.vault && TablesOk(store.vault, store.View())
      requires DistinctKeys(scanner.vault, scanner.disk.listing)
      modifies store
      ensures TablesOk(store.vault, store.View())
      ensures !committed || measure ==> store.View() == old(store.View()) && parsed == failed == 0
      ensures committed && !measure ==>
        var current := ByKey(FilesOf(scanner.vault, old(store.states), scanner.disk, full, |scanner.disk.listing|));
        && !Clash(old(store.View()), current)
        && store.states.Keys == current.Keys
        && (forall k :: k in current ==> store.states[k].hash == current[k].hash)
        && (forall s :: NeedsParsing(old(store.View()), current, store.states, s) ==> Ends(s, store.View()))
        && (parsed == 0 <==> forall s :: NeedsParsing(old(store.View()), current, store.states, s) ==> !parses(s))
        && (failed == 0 <==> forall s :: NeedsParsing(old(store.View()), current, store.states, s) ==> parses(s))
        && (TextHasFile(old(store.View())) ==>
              (TextHasFile(store.View()) <==>
                 forall s :: NeedsParsing(old(store.View()), current, store.states, s) && parses(s) ==>
                   !AwaitedRemoval(old(store.View()), current, s.document)))
    {
      hide TablesOk, Applied, Clash, Lists, FilesOf, ByKey, ChangeSet, Stored, FailedParse, ToParse;
      hide TextHasFile, HasFile, AwaitedRemoval, NeedsParsing, Ends, TakenIn, OldIsReported, NewIsReported;
      ghost var db := store.View();
      parsed, failed := 0, 0;
      TablesHaveStates(store.vault, db);
      var result := scanner.Scan(store.states, full);
      ghost var current := ByKey(result.files);
      FilesByKey(scanner.vault, store.states, scanner.disk, full, |scanner.disk.listing|);
      hide WellKeyed;
      var toParse;
      committed, toParse := store.ApplyScan(measure, result);
      if measure || !committed {
        return;
      }
      StepKeepsTables(store.vault, db, Event.Scan(current), store.View());
      CommittedScanRecordsTheFiles(store.vault, db, current, store.View());
      ghost var now := store.View();
      EachIsScheduledOnce(store.vault, db, current, now, toParse);
      parsed, failed := ParseAll(toParse, now);
      if TextHasFile(db) {
        CommitKeepsText(store.vault, db, current, now);
        ScheduledHaveFiles(store.vault, db, current, now, toParse);
      }
    }
  }

  /** The texts to parse are those that need it, each for another document that exists. */
  lemma EachIsScheduledOnce(vault: Vault, db: Db, current: Files, now: Db, toParse: seq<ParseSource>)
    requires WellKeyed(vault, current) && Applied(vault, db, current, now)
    requires forall s :: s in toParse <==> ToParse(db, current, now, s)
    ensures forall s :: s in toParse <==> NeedsParsing(db, current, now.states, s)
    ensures forall s, t :: s in toParse && t in toParse && s.document == t.document ==> s == t
    ensures forall s :: s in toParse ==> s.document in now.documents
  {
    hide Applied, ToParse, NeedsParsing, WellKeyed;
    forall s
      ensures s in toParse <==> NeedsParsing(db, current, now.states, s)
    {
      ScheduledExactlyWhen(vault, db, current, now, s);
    }
    forall s, t | s in toParse && t in toParse && s.document == t.document
      ensures s == t && s.document in now.documents
    {
      ScheduledOnce(vault, db, current, now, s, t);
    }
  }

  lemma ScheduledHaveFiles(vault: Vault, db: Db, current: Files, now: Db, toParse: seq<ParseSource>)
    requires WellKeyed(vault, current) && Applied(vault, db, current, now)
    requires forall s :: s in toParse <==> ToParse(db, current, now, s)
    ensures forall s :: s in toParse ==> (HasFile(now, s.document) <==> !AwaitedRemoval(db, current, s.document))
  {
    hide Applied, ToParse, WellKeyed, HasFile, AwaitedRemoval;
    forall s | s in toParse
      ensures HasFile(now, s.document) <==> !AwaitedRemoval(db, current, s.document)
    {
      ScheduledHasFileExactlyWhen(vault, db, current, now, s);
    }
  }

  /** Storing a version leaves the current versions of other documents as they are. */
  lemma OthersKeepTheirVersion(vault: Vault, db: Db, v: VersionId, now: Db)
    requires TablesOk(vault, db) && BecomesCurrent(db, v, now)
    ensures forall w: VersionId :: w.document != v.document && w in db.versions ==>
      w in now.versions && now.versions[w] == db.versions[w] && (w in now.derived <==> w in db.derived)
  {
    hide StatesOk, KeysUnique;
  }

  lemma CommitKeepsText(vault: Vault, db: Db, current: Files, now: Db)
    requires TablesOk(vault, db) && WellKeyed(vault, current) && Applied(vault, db, current, now) && TextHasFile(db)
    ensures TextHasFile(now)
  {
    hide Applied, TextHasFile, WellKeyed;
    CommitKeepsTextHasFile(vault, db, current, now);
  }

  /** What one parse does to text without a file; files are those of the scan, `now`. */
  lemma ParseKeepsText(vault: Vault, s: Db, e: Event, t: Db, now: Db)
    requires TablesOk(vault, s) && Step(vault, s, e, t) && !e.Scan? && s.states == now.states
    ensures TextHasFile(t) <==> TextHasFile(s) && (e.Store? ==> HasFile(now, e.version.document))
  {
    hide Step, TextHasFile, TablesOk;
    assert HasFile(s, e.version.document) <==> HasFile(now, e.version.document);
    hide HasFile;
    if TextHasFile(s) {
      StepKeepsTextExactlyWhen(vault, s, e, t);
    } else {
      StepKeepsTextWithoutFile(vault, s, e, t);
    }
  }

  lemma TablesHaveStates(vault: Vault, db: Db)
    requires TablesOk(vault, db)
    ensures StatesOk(vault, db) && WellKeyed(vault, db.states)
  {
  }
}
