/**
 The tables an ingest run updates: file states, documents, document versions and the rows derived
 from a version. What a committed scan does to them, and what every history of scans, stores and
 failures keeps.
 */
module IngestModel {
  import opened Options
  import opened ScanModel

  /** Version ids are derived from document and hash, injectively. */
  datatype VersionId = VersionId(document: DocId, hash: Hash)

  datatype Status = Parsing | Ready | VersionFailed | Superseded

  datatype Lifecycle = Active | Removed | InError

  datatype Document = Document(path: Path, key: Key, lifecycle: Lifecycle, current: Option<VersionId>)

  /** `derived` holds the versions that have section, block, chunk and link rows. */
  datatype Db = Db(states: Files, documents: map<DocId, Document>, versions: map<VersionId, Status>,
                   derived: set<VersionId>)

  datatype ParseSource = ParseSource(document: DocId, path: Path, hash: Hash)

  // ---------- Invariants ----------

  /** A file state's key is its path's key and its document's key. */
  ghost predicate StatesOk(vault: Vault, db: Db) {
    && WellKeyed(vault, db.states)
    && (forall k :: k in db.states ==>
          && db.states[k].document.Some? && db.states[k].document.value in db.documents
          && db.documents[db.states[k].document.value].key == k)
  }

  ghost predicate KeysUnique(db: Db) {
    forall d, e :: d in db.documents && e in db.documents && db.documents[d].key == db.documents[e].key ==> d == e
  }

  /** Derived rows exist exactly for current versions, and only a current version is ready. */
  ghost predicate VersionsOk(db: Db) {
    && (forall v :: v in db.derived <==> IsCurrent(db, v))
    && (forall v :: IsCurrent(db, v) ==> v in db.versions && (db.versions[v] == Ready || db.versions[v] == VersionFailed))
    && (forall v :: v in db.versions && db.versions[v] == Ready ==> IsCurrent(db, v))
    && (forall d :: d in db.documents && db.documents[d].current.Some? ==> db.documents[d].current.value.document == d)
  }

  predicate IsCurrent(db: Db, v: VersionId) {
    v.document in db.documents && db.documents[v.document].current == Some(v)
  }

  ghost predicate TablesOk(vault: Vault, db: Db) {
    StatesOk(vault, db) && KeysUnique(db) && VersionsOk(db)
  }

  function DocumentOf(db: Db, k: Key): DocId
    requires k in db.states && db.states[k].document.Some?
  {
    db.states[k].document.value
  }

  // ---------- What a committed scan did, so far ----------

  function Recorded(file: Snapshot, d: DocId): Snapshot {
    file.(document := Some(d))
  }

  function Edit(doc: Document, file: Snapshot): Document {
    doc.(lifecycle := Active, path := file.path, key := file.key)
  }

  function Moved(doc: Document, file: Snapshot): Document {
    doc.(path := file.path, key := file.key)
  }

  function Retired(doc: Document): Document {
    doc.(lifecycle := Removed, current := None)
  }

  /** A document whose file is edited, moved or gone, once its change has been processed. */
  ghost function DocumentAfter(db: Db, current: Files, gone: set<Key>, edited: set<Key>, k: Key): Document
    requires k in db.states && db.states[k].document.Some? && DocumentOf(db, k) in db.documents
  {
    var doc := db.documents[DocumentOf(db, k)];
    var target := Target(db.states, current, k);
    if k in gone then
      if target.Some? && target.value in current then Moved(doc, current[target.value]) else Retired(doc)
    else if k in edited && k in current then Edit(doc, current[k])
    else doc
  }

  /** The current versions of the documents retired so far. */
  ghost function RetiredVersions(db: Db, current: Files, gone: set<Key>): set<VersionId>
    requires forall k :: k in db.states ==> db.states[k].document.Some? && DocumentOf(db, k) in db.documents
  {
    set k | k in gone && k in db.states && Target(db.states, current, k).None?
            && db.documents[DocumentOf(db, k)].current.Some? ::
      db.documents[DocumentOf(db, k)].current.value
  }

  /** The departed keys handled so far, the arrived ones and the edited ones. */
  datatype Done = Done(gone: set<Key>, came: set<Key>, edited: set<Key>)

  ghost predicate StatesApplied(db: Db, current: Files, done: Done, now: Db)
    requires forall k :: k in db.states ==> db.states[k].document.Some?
  {
    && (forall k :: k in now.states <==> (k in db.states && k !in done.gone) || k in done.came)
    && (forall k :: k in db.states && k !in done.gone ==>
          now.states[k] == if k in done.edited && k in current then Recorded(current[k], DocumentOf(db, k)) else db.states[k])
    && (forall k :: k in done.came ==>
          && k in current && now.states[k].document.Some?
          && now.states[k] == Recorded(current[k], DocumentOf(now, k))
          && match Origin(db.states, current, k)
             case Some(source) => source in db.states && DocumentOf(now, k) == DocumentOf(db, source)
             case None => DocumentOf(now, k) !in db.documents)
  }

  ghost predicate OldDocumentsApplied(db: Db, current: Files, done: Done, now: Db)
    requires forall k :: k in db.states ==> db.states[k].document.Some? && DocumentOf(db, k) in db.documents
  {
    && (forall k :: k in db.states ==>
          && DocumentOf(db, k) in now.documents
          && now.documents[DocumentOf(db, k)] == DocumentAfter(db, current, done.gone, done.edited, k))
    && (forall d :: d in db.documents && (forall k :: k in db.states ==> DocumentOf(db, k) != d) ==>
          d in now.documents && now.documents[d] == db.documents[d])
  }

  ghost predicate NewDocumentsApplied(db: Db, current: Files, done: Done, now: Db)
    requires forall k :: k in db.states ==> db.states[k].document.Some?
    requires StatesApplied(db, current, done, now)
  {
    && (forall d :: d in now.documents && d !in db.documents ==>
          now.documents[d].key in done.came && DocumentOf(now, now.documents[d].key) == d)
    && (forall k :: k in done.came && Origin(db.states, current, k).None? ==>
          DocumentOf(now, k) in now.documents
          && now.documents[DocumentOf(now, k)] == Document(current[k].path, k, Active, None))
  }

  ghost predicate VersionsApplied(db: Db, current: Files, done: Done, now: Db)
    requires forall k :: k in db.states ==> db.states[k].document.Some? && DocumentOf(db, k) in db.documents
  {
    var retired := RetiredVersions(db, current, done.gone);
    && now.derived == db.derived - retired
    && (forall v :: v in now.versions <==> v in db.versions)
    && (forall v :: v in now.versions ==> now.versions[v] == if v in retired then Superseded else db.versions[v])
  }

  ghost predicate AppliedSoFar(vault: Vault, db: Db, current: Files, done: Done, now: Db) {
    && StatesOk(vault, db)
    && StatesApplied(db, current, done, now)
    && OldDocumentsApplied(db, current, done, now)
    && NewDocumentsApplied(db, current, done, now)
    && VersionsApplied(db, current, done, now)
  }

  ghost function Everything(db: Db, current: Files): Done {
    Done(Departed(db.states, current), Arrived(db.states, current), Edited(db.states, current))
  }

  /** The whole effect of a committed scan. */
  ghost predicate Applied(vault: Vault, db: Db, current: Files, now: Db) {
    AppliedSoFar(vault, db, current, Everything(db, current), now)
  }

  /** An arriving file takes a path key that a document without a file still holds. */
  ghost predicate Clash(db: Db, current: Files) {
    exists k, d :: k in Arrived(db.states, current) && d in db.documents && db.documents[d].key == k
  }

  // ---------- Parsing ----------

  /** A version becomes the current one of its document, alone with derived rows. */
  function Stored(db: Db, v: VersionId): Db
    requires v.document in db.documents
  {
    var doc := db.documents[v.document];
    var replaced := doc.current.Some? && doc.current.value != v && doc.current.value in db.versions;
    db.(documents := db.documents[v.document := doc.(current := Some(v), lifecycle := Active)],
        versions := (if replaced then db.versions[doc.current.value := Superseded] else db.versions)[v := Ready],
        derived := (if replaced then db.derived - {doc.current.value} else db.derived) + {v})
  }

  function FailedParse(db: Db, v: VersionId): Db {
    db.(documents := if v.document in db.documents
                     then db.documents[v.document := db.documents[v.document].(lifecycle := InError)] else db.documents,
        versions := if v in db.versions then db.versions[v := VersionFailed] else db.versions)
  }

  // ---------- What is parsed after a scan ----------

  predicate Pending(doc: Document) {
    doc.lifecycle == InError || doc.current.None?
  }

  /** A changed file, under the document it now belongs to. */
  ghost predicate ChangedSource(db: Db, current: Files, done: Done, now: Db, s: ParseSource) {
    exists k :: k in current && k in now.states && now.states[k].document == Some(s.document)
      && (k in done.edited || (k in done.came && Origin(db.states, current, k).None?))
      && s.path == current[k].path && s.hash == current[k].hash
  }

  /**
   A file known before the scan whose document awaited parsing before the scan, as it was known then:
   the transaction reads the document rows before it has written its own changes to them.
   */
  ghost predicate PendingSource(db: Db, current: Files, s: ParseSource) {
    exists k :: k in db.states && k !in Edited(db.states, current)
      && db.states[k].document == Some(s.document) && s.path == db.states[k].path && s.hash == db.states[k].hash
      && s.document in db.documents && Pending(db.documents[s.document])
  }

  /** What a committed scan has parsed afterwards. */
  ghost predicate ToParse(db: Db, current: Files, now: Db, s: ParseSource) {
    ChangedSource(db, current, Everything(db, current), now, s) || PendingSource(db, current, s)
  }
}
