/** The ingest store's transactions in their imperative form. */
module IngestStore {
  import opened Collections
  import opened Options
  import opened ScanModel
  import opened Scanner
  import opened IngestModel
  import opened IngestSteps

  ghost function RenamesIn(changes: seq<Change>): set<Change> {
    set c | c in changes && c.kind == Renamed
  }

  /** The renames are handled in a first pass, everything else in a second. */
  ghost function HandledAt(changes: seq<Change>, i: nat): set<Change>
    requires i <= |changes|
  {
    RenamesIn(changes) + set c | c in changes[..i]
  }

  lemma PrefixGrows(changes: seq<Change>, i: nat)
    requires i < |changes| && NoDuplicates(changes)
    ensures changes[i].kind == Renamed ==>
      && RenamesIn(changes[..i + 1]) == RenamesIn(changes[..i]) + {changes[i]}
      && changes[i] !in RenamesIn(changes[..i]) && HandledAt(changes, i + 1) == HandledAt(changes, i)
    ensures changes[i].kind != Renamed ==>
      && RenamesIn(changes[..i + 1]) == RenamesIn(changes[..i])
      && HandledAt(changes, i + 1) == HandledAt(changes, i) + {changes[i]} && changes[i] !in HandledAt(changes, i)
  {
    assert changes[..i + 1] == changes[..i] + [changes[i]];
  }

  lemma PrefixEnds(changes: seq<Change>)
    ensures RenamesIn([]) == {} && changes[..|changes|] == changes
    ensures HandledAt(changes, 0) == RenamesIn(changes)
    ensures HandledAt(changes, |changes|) == Elements(changes)
  {
    assert changes[..|changes|] == changes;
  }

  lemma FreshDocument(used: set<DocId>) returns (d: DocId)
    ensures d !in used
  {
    d := FreshAbove(used);
  }

  lemma {:induction false} FreshAbove(used: set<DocId>) returns (d: DocId)
    ensures forall x :: x in used ==> x < d
    decreases |used|
  {
    if used == {} {
      d := 0;
    } else {
      var x :| x in used;
      var e := FreshAbove(used - {x});
      assert forall y :: y in used ==> y == x || y in used - {x};
      d := if e > x then e else x + 1;
    }
  }

  /** Both halves of a rename are handled together. */
  lemma RenamedHalves(previous: Files, current: Files, handled: set<Change>)
    ensures forall k :: k in DoneBy(previous, current, handled).gone && Target(previous, current, k).Some? ==>
      Target(previous, current, k).value in DoneBy(previous, current, handled).came
  {
    forall k | k in DoneBy(previous, current, handled).gone && Target(previous, current, k).Some?
      ensures Target(previous, current, k).value in DoneBy(previous, current, handled).came
    {
      TargetArrives(previous, current, k);
      RenamesAreOneToOne(previous, current, k, Target(previous, current, k).value);
    }
  }

  class PostgresIngestStore {
    const vault: Vault
    var states: Files
    var documents: map<DocId, Document>
    var versions: map<VersionId, Status>
    var derived: set<VersionId>

    constructor (vault: Vault)
      ensures this.vault == vault && View() == Db(map[], map[], map[], {})
    {
      this.vault := vault;
      states, documents, versions, derived := map[], map[], map[], {};
    }

    ghost function View(): Db
      reads this
    {
      Db(states, documents, versions, derived)
    }

    /** First pass: a renamed file keeps its document under the new path. */
    method ApplyRenames(changes: seq<Change>, current: Files) returns (ok: bool)
      requires StatesOk(vault, View()) && WellKeyed(vault, current)
      requires Lists(changes, ChangeSet(states, current))
      modifies this
      ensures ok ==>
        var done := DoneBy(old(states), current, RenamesIn(changes));
        AppliedSoFar(vault, old(View()), current, done, View()) && !Taken(old(View()), done)
      ensures !ok ==> Clash(old(View()), current)
    {
      hide ChangeSet, AppliedSoFar, DoneBy, RenamesIn, HandledAt, Target, Origin, KeyTaken;
      ghost var db := View();
      var before := states;
      NothingHandled(states, current);
      StartApplied(vault, db, current);
      PrefixEnds(changes);
      for i := 0 to |changes|
        invariant AppliedSoFar(vault, db, current, DoneBy(before, current, RenamesIn(changes[..i])), View())
        invariant !Taken(db, DoneBy(before, current, RenamesIn(changes[..i])))
      {
        var change := changes[i];
        PrefixGrows(changes, i);
        if change.kind == Renamed {
          ghost var handled := RenamesIn(changes[..i]);
          assert change in Elements(changes);
          RenameKeys(vault, before, current, change);
          var k, j := vault.pathKey(change.oldPath.value), vault.pathKey(change.newPath.value);
          HandleRename(vault, before, current, handled, change, k, j);
          ReadyToRename(vault, db, current, handled, View(), change, k, j);
          var d := before[k].document.value;
          if KeyTaken(documents, j) {
            return false;
          }
          RenameRow(vault, db, current, DoneBy(before, current, handled), View(), k, j);
          states := (states - {k})[j := current[j].(document := Some(d))];
          documents := documents[d := documents[d].(path := current[j].path, key := j)];
        }
      }
      ok := true;
    }

    /** The current version's rows go, the version is superseded and the document has none. */
    method DeleteDocumentSource(d: DocId)
      modifies this`documents, this`versions, this`derived
      ensures d !in old(documents) ==> View() == old(View())
      ensures d in old(documents) ==> documents == old(documents)[d := Retired(old(documents)[d])]
      ensures d in old(documents) && old(documents)[d].current.None? ==>
        versions == old(versions) && derived == old(derived)
      ensures d in old(documents) && old(documents)[d].current.Some? ==>
        var version := old(documents)[d].current.value;
        && derived == old(derived) - {version}
        && versions == if version in old(versions) then old(versions)[version := Superseded] else old(versions)
    {
      if d !in documents {
        return;
      }
      var document := documents[d];
      if document.current.Some? {
        derived := derived - {document.current.value};
        if document.current.value in versions {
          versions := versions[document.current.value := Superseded];
        }
      }
      documents := documents[d := document.(current := None, lifecycle := Removed)];
    }

    /** Second pass: removed files retire their documents, edited and new files are recorded. */
    method ApplyOthers(changes: seq<Change>, current: Files, before: Files, ghost db: Db)
      returns (ok: bool, toParse: seq<ParseSource>)
      requires StatesOk(vault, db) && WellKeyed(vault, current) && before == db.states
      requires Lists(changes, ChangeSet(before, current))
      requires var done := DoneBy(before, current, RenamesIn(changes));
        AppliedSoFar(vault, db, current, done, View()) && !Taken(db, done)
      modifies this
      ensures ok ==> Applied(vault, db, current, View()) && !Taken(db, Everything(db, current))
      ensures ok ==> Scheduled(db, current, Everything(db, current), View(), toParse)
      ensures !ok ==> Clash(db, current)
    {
      hide ChangeSet, AppliedSoFar, DoneBy, RenamesIn, HandledAt, Target, Origin, KeyTaken, Taken, Scheduled;
      toParse := [];
      PrefixEnds(changes);
      NothingScheduled(vault, db, current, RenamesIn(changes), changes, View());
      for i := 0 to |changes|
        invariant AppliedSoFar(vault, db, current, DoneBy(before, current, HandledAt(changes, i)), View())
        invariant !Taken(db, DoneBy(before, current, HandledAt(changes, i)))
        invariant Scheduled(db, current, DoneBy(before, current, HandledAt(changes, i)), View(), toParse)
      {
        var change := changes[i];
        PrefixGrows(changes, i);
        ghost var handled := HandledAt(changes, i);
        ghost var now := View();
        assert change in Elements(changes);
        if change.kind == Renamed {
          continue;
        }
        OtherKeys(vault, before, current, change);
        if change.oldPath.Some? && change.newPath.None? {
          var k := vault.pathKey(change.oldPath.value);
          ReadyToRemove(vault, db, current, handled, now, k, toParse);
          var d := before[k].document.value;
          states := states - {k};
          DeleteDocumentSource(d);
          assert View() == AfterRemove(db, now, k);
          continue;
        }
        var k := vault.pathKey(change.newPath.value);
        var file := current[k];
        var d: DocId;
        if k in before {
          ReadyToEdit(vault, db, current, handled, now, k, toParse);
          d := before[k].document.value;
          documents := documents[d := documents[d].(lifecycle := Active, path := file.path, key := k)];
          states := states[k := states[k].(path := file.path, size := file.size, mtime := file.mtime, hash := file.hash)];
          assert View() == AfterEdit(db, current, now, k);
        } else {
          if KeyTaken(documents, k) {
            TakenNow(vault, db, current, handled, now, k);
            return false, [];
          }
          ghost var unused := FreshDocument(documents.Keys);
          d :| d !in documents;
          ReadyToCreate(vault, db, current, handled, now, k, d, toParse);
          documents := documents[d := Document(file.path, k, Active, None)];
          states := states[k := file.(document := Some(d))];
          assert View() == AfterCreate(current, now, k, d);
        }
        toParse := toParse + [ParseSource(d, file.path, file.hash)];
      }
      AllHandled(before, current);
      ok := true;
    }

    /**
     Documents that await parsing are scheduled under the state they had before. `stored` are the
     document rows the query reads: sessions do not flush by themselves, so they are those of before.
     */
    method SchedulePending(before: Files, stored: map<DocId, Document>, scheduled: seq<ParseSource>)
      returns (toParse: seq<ParseSource>)
      requires forall k :: k in before ==> before[k].document.Some?
      ensures scheduled <= toParse
      ensures forall s :: s in toParse[|scheduled|..] <==>
        exists k :: k in before && IsPendingState(stored, scheduled, before[k], s)
    {
      toParse := scheduled;
      var todo := before.Keys;
      while todo != {}
        invariant todo <= before.Keys && scheduled <= toParse
        invariant forall s :: s in toParse[|scheduled|..] <==>
          exists k :: k in before && k !in todo && IsPendingState(stored, scheduled, before[k], s)
      {
        var k :| k in todo;
        todo := todo - {k};
        var state := before[k];
        var d := state.document.value;
        if d in stored && (stored[d].lifecycle == InError || stored[d].current.None?)
           && !exists s :: s in scheduled && s.document == d {
          var source := ParseSource(d, state.path, state.hash);
          assert (toParse + [source])[|scheduled|..] == toParse[|scheduled|..] + [source];
          toParse := toParse + [source];
        }
      }
    }

    /**
     A scan commits unless it brings a file under a path key that a document without a file still
     holds, and then changes nothing. A measuring scan changes nothing either.
     */
    method ApplyScan(measure: bool, result: ScanResult) returns (committed: bool, toParse: seq<ParseSource>)
      requires StatesOk(vault, View()) && WellKeyed(vault, ByKey(result.files))
      requires Lists(result.changes, ChangeSet(states, ByKey(result.files)))
      modifies this
      ensures measure ==> committed && View() == old(View()) && toParse == []
      ensures !measure ==> (committed <==> !Clash(old(View()), ByKey(result.files)))
      ensures !committed ==> View() == old(View()) && toParse == []
      ensures !measure && committed ==>
        && Applied(vault, old(View()), ByKey(result.files), View())
        && (forall s :: s in toParse <==> ToParse(old(View()), ByKey(result.files), View(), s))
    {
      hide AppliedSoFar, DoneBy, Clash, Taken, Scheduled, ChangeSet, ByKey, ToParse, RenamesIn;
      hide KeyTaken, IsPendingState;
      if measure {
        return true, [];
      }
      ghost var db := View();
      var before, oldDocuments, oldVersions, oldDerived := states, documents, versions, derived;
      var current := ByKey(result.files);
      committed := ApplyRenames(result.changes, current);
      if committed {
        committed, toParse := ApplyOthers(result.changes, current, before, db);
      }
      if !committed {
        states, documents, versions, derived := before, oldDocuments, oldVersions, oldDerived;
        return false, [];
      }
      ClashIsTaken(db, current);
      var scheduled := toParse;
      toParse := SchedulePending(before, oldDocuments, scheduled);
      PendingSources(vault, db, current, View(), scheduled, toParse);
    }

    /** Replaces a version's rows and makes it the document's current version. */
    method StoreDocument(source: ParseSource) returns (found: bool)
      modifies this`documents, this`versions, this`derived
      ensures found <==> source.document in old(documents)
      ensures View() == if found then Stored(old(View()), VersionId(source.document, source.hash)) else old(View())
      ensures found ==> BecomesCurrent(old(View()), VersionId(source.document, source.hash), View())
    {
      hide BecomesCurrent;
      var version := VersionId(source.document, source.hash);
      if source.document !in documents {
        return false;
      }
      var document := documents[source.document];
      StoredBecomesCurrent(View(), version);
      derived := derived - {version};
      versions := versions[version := Parsing];
      derived := derived + {version};
      if document.current.Some? && document.current.value != version {
        if document.current.value in versions {
          versions := versions[document.current.value := Superseded];
          derived := derived - {document.current.value};
        }
      }
      documents := documents[source.document := document.(current := Some(version), lifecycle := Active)];
      versions := versions[version := Ready];
      assert versions == Stored(old(View()), version).versions;
      assert derived == Stored(old(View()), version).derived;
      found := true;
    }

    method MarkDocumentFailed(d: DocId, hash: Hash)
      modifies this`documents, this`versions
      ensures View() == FailedParse(old(View()), VersionId(d, hash))
      ensures documents.Keys == old(documents.Keys) && versions.Keys == old(versions.Keys)
      ensures forall e :: e in documents ==>
        documents[e] == if e == d then old(documents)[e].(lifecycle := InError) else old(documents)[e]
      ensures forall v :: v in versions ==>
        versions[v] == if v == VersionId(d, hash) then VersionFailed else old(versions)[v]
    {
      if d in documents {
        documents := documents[d := documents[d].(lifecycle := InError)];
      }
      if VersionId(d, hash) in versions {
        versions := versions[VersionId(d, hash) := VersionFailed];
      }
    }
  }

  /**
   A version becomes the ready, current version of an active document and has rows; the one it replaces is superseded
   and has none. All other documents and versions stay.
   */
  ghost predicate BecomesCurrent(db: Db, v: VersionId, now: Db) {
    && v.document in db.documents
    && now.states == db.states && now.documents.Keys == db.documents.Keys
    && (forall d :: d in db.documents ==>
          now.documents[d] == if d == v.document then db.documents[d].(current := Some(v), lifecycle := Active)
                              else db.documents[d])
    && v in now.versions && now.versions[v] == Ready && v in now.derived
    && (forall w :: w in now.versions <==> w in db.versions || w == v)
    && (forall w :: w in db.versions && w != v ==>
          && now.versions[w] == (if db.documents[v.document].current == Some(w) then Superseded else db.versions[w])
          && (w in now.derived <==> w in db.derived && db.documents[v.document].current != Some(w)))
  }

  lemma StoredBecomesCurrent(db: Db, v: VersionId)
    requires v.document in db.documents
    ensures BecomesCurrent(db, v, Stored(db, v))
  {
  }

  ghost predicate IsPendingState(documents: map<DocId, Document>, scheduled: seq<ParseSource>, state: Snapshot,
                                 s: ParseSource)
    requires state.document.Some?
  {
    && s == ParseSource(state.document.value, state.path, state.hash)
    && s.document in documents && Pending(documents[s.document])
    && !exists t :: t in scheduled && t.document == s.document
  }

  lemma ClashIsTaken(db: Db, current: Files)
    ensures Clash(db, current) <==> Taken(db, Everything(db, current))
  {
    if Clash(db, current) {
      var k, d :| k in Arrived(db.states, current) && d in db.documents && db.documents[d].key == k;
      assert k in Everything(db, current).came && KeyTaken(db.documents, k);
    }
  }

  /** The documents scheduled as changed are those of new and edited files. */
  lemma PendingSources(vault: Vault, db: Db, current: Files, now: Db, scheduled: seq<ParseSource>,
                       toParse: seq<ParseSource>)
    requires Applied(vault, db, current, now) && Scheduled(db, current, Everything(db, current), now, scheduled)
    requires scheduled <= toParse
    requires forall s :: s in toParse[|scheduled|..] <==>
      exists k :: k in db.states && IsPendingState(db.documents, scheduled, db.states[k], s)
    ensures forall s :: s in toParse <==> ToParse(db, current, now, s)
  {
    forall k | k in db.states
      ensures k in Edited(db.states, current) <==> exists t :: t in scheduled && t.document == DocumentOf(db, k)
    {
      EditedIsScheduled(vault, db, current, now, scheduled, k);
    }
    hide AppliedSoFar, Scheduled, ChangedSource, Edited, StatesOk;
    assert toParse == scheduled + toParse[|scheduled|..];
    forall s ensures s in toParse[|scheduled|..] <==> PendingSource(db, current, s) {
    }
  }

  lemma EditedIsScheduled(vault: Vault, db: Db, current: Files, now: Db, scheduled: seq<ParseSource>, k: Key)
    requires Applied(vault, db, current, now) && Scheduled(db, current, Everything(db, current), now, scheduled)
    requires k in db.states
    ensures k in Edited(db.states, current) <==> exists t :: t in scheduled && t.document == DocumentOf(db, k)
  {
    hide OldDocumentsApplied, NewDocumentsApplied, VersionsApplied, Origin;
    if k in Edited(db.states, current) {
      assert ChangedSource(db, current, Everything(db, current), now,
                           ParseSource(DocumentOf(db, k), current[k].path, current[k].hash));
    }
    if t :| t in scheduled && t.document == DocumentOf(db, k) {
      assert ChangedSource(db, current, Everything(db, current), now, t);
    }
  }

  ghost predicate Taken(db: Db, done: Done) {
    exists j :: j in done.came && KeyTaken(db.documents, j)
  }

  /** The files scheduled so far are exactly the new and the edited ones handled so far. */
  ghost predicate Scheduled(db: Db, current: Files, done: Done, now: Db, toParse: seq<ParseSource>) {
    forall s :: s in toParse <==> ChangedSource(db, current, done, now, s)
  }

  lemma NothingScheduled(vault: Vault, db: Db, current: Files, handled: set<Change>, changes: seq<Change>, now: Db)
    requires WellKeyed(vault, db.states) && WellKeyed(vault, current)
    requires handled == RenamesIn(changes) && Elements(changes) == ChangeSet(db.states, current)
    ensures Scheduled(db, current, DoneBy(db.states, current, handled), now, [])
  {
    forall k | k in DoneBy(db.states, current, handled).came ensures Origin(db.states, current, k).Some? {
    }
  }

  lemma ReadyToRemove(vault: Vault, db: Db, current: Files, handled: set<Change>, now: Db, k: Key,
                      toParse: seq<ParseSource>)
    requires k in Gone(db.states, current) && GoneOf(db.states, current, k) !in handled
    requires var done := DoneBy(db.states, current, handled);
      AppliedSoFar(vault, db, current, done, now) && !Taken(db, done) && Scheduled(db, current, done, now, toParse)
    ensures k in db.states && db.states[k].document.Some? && DocumentOf(db, k) in now.documents
    ensures now.documents[DocumentOf(db, k)] == db.documents[DocumentOf(db, k)]
    ensures var done := DoneBy(db.states, current, handled + {GoneOf(db.states, current, k)});
      && AppliedSoFar(vault, db, current, done, AfterRemove(db, now, k)) && !Taken(db, done)
      && Scheduled(db, current, done, AfterRemove(db, now, k), toParse)
  {
    HandleGone(vault, db.states, current, handled, k);
    var done := DoneBy(db.states, current, handled);
    Untouched(vault, db, current, done, now, k);
    RemoveRow(vault, db, current, done, now, k);
    ScheduledAfterRemove(db, current, done, now, AfterRemove(db, now, k), k, toParse);
    hide AppliedSoFar, DoneBy, Scheduled, AfterRemove, GoneOf;
  }

  lemma ScheduledAfterRemove(db: Db, current: Files, done: Done, now: Db, next: Db, k: Key, toParse: seq<ParseSource>)
    requires Scheduled(db, current, done, now, toParse) && next.states == now.states - {k} && k !in current
    ensures Scheduled(db, current, done.(gone := done.gone + {k}), next, toParse)
  {
    hide Origin;
    forall s ensures ChangedSource(db, current, done.(gone := done.gone + {k}), next, s)
                <==> ChangedSource(db, current, done, now, s) {
    }
  }

  lemma ScheduledOneMore(db: Db, current: Files, done: Done, more: Done, now: Db, next: Db, k: Key, d: DocId,
                         toParse: seq<ParseSource>)
    requires Scheduled(db, current, done, now, toParse) && k in current && k !in done.came && k !in done.edited
    requires next.states == now.states[k := Recorded(current[k], d)]
    requires || (more == Done(done.gone, done.came, done.edited + {k}))
             || (more == Done(done.gone, done.came + {k}, done.edited) && Origin(db.states, current, k).None?)
    ensures Scheduled(db, current, more, next, toParse + [ParseSource(d, current[k].path, current[k].hash)])
  {
    hide Origin;
    var added := ParseSource(d, current[k].path, current[k].hash);
    forall s ensures ChangedSource(db, current, more, next, s) <==> ChangedSource(db, current, done, now, s) || s == added {
      assert k in next.states;
      if ChangedSource(db, current, done, now, s) {
        var x :| x in current && x in now.states && now.states[x].document == Some(s.document)
          && (x in done.edited || (x in done.came && Origin(db.states, current, x).None?))
          && s.path == current[x].path && s.hash == current[x].hash;
        assert x in next.states && next.states[x] == now.states[x];
      }
    }
  }

  lemma ReadyToEdit(vault: Vault, db: Db, current: Files, handled: set<Change>, now: Db, k: Key,
                    toParse: seq<ParseSource>)
    requires WellKeyed(vault, current) && k in Edited(db.states, current) && EditOf(db.states, current, k) !in handled
    requires var done := DoneBy(db.states, current, handled);
      AppliedSoFar(vault, db, current, done, now) && !Taken(db, done) && Scheduled(db, current, done, now, toParse)
    ensures k in db.states && k in current && db.states[k].document.Some? && DocumentOf(db, k) in now.documents
    ensures k in now.states && now.states[k] == db.states[k]
    ensures var done := DoneBy(db.states, current, handled + {EditOf(db.states, current, k)});
      && AppliedSoFar(vault, db, current, done, AfterEdit(db, current, now, k)) && !Taken(db, done)
      && Scheduled(db, current, done, AfterEdit(db, current, now, k),
                   toParse + [ParseSource(DocumentOf(db, k), current[k].path, current[k].hash)])
  {
    HandleEdit(vault, db.states, current, handled, k);
    EditRow(vault, db, current, DoneBy(db.states, current, handled), now, k);
    ScheduledOneMore(db, current, DoneBy(db.states, current, handled),
                     DoneBy(db.states, current, handled + {EditOf(db.states, current, k)}), now,
                     AfterEdit(db, current, now, k), k, DocumentOf(db, k), toParse);
    hide OldDocumentsApplied, NewDocumentsApplied, VersionsApplied, DoneBy, Origin, WellKeyed, Scheduled;
  }

  lemma ReadyToCreate(vault: Vault, db: Db, current: Files, handled: set<Change>, now: Db, k: Key, d: DocId,
                      toParse: seq<ParseSource>)
    requires WellKeyed(vault, current) && k in Fresh(db.states, current) && NewOf(db.states, current, k) !in handled
    requires d !in now.documents && !KeyTaken(now.documents, k)
    requires var done := DoneBy(db.states, current, handled);
      AppliedSoFar(vault, db, current, done, now) && !Taken(db, done) && Scheduled(db, current, done, now, toParse)
    ensures var done := DoneBy(db.states, current, handled + {NewOf(db.states, current, k)});
      && AppliedSoFar(vault, db, current, done, AfterCreate(current, now, k, d)) && !Taken(db, done)
      && Scheduled(db, current, done, AfterCreate(current, now, k, d),
                   toParse + [ParseSource(d, current[k].path, current[k].hash)])
  {
    HandleNew(vault, db.states, current, handled, k);
    CreateRow(vault, db, current, DoneBy(db.states, current, handled), now, k, d);
    TakenNow(vault, db, current, handled, now, k);
    ScheduledOneMore(db, current, DoneBy(db.states, current, handled),
                     DoneBy(db.states, current, handled + {NewOf(db.states, current, k)}), now,
                     AfterCreate(current, now, k, d), k, d, toParse);
    hide AppliedSoFar, DoneBy, Scheduled;
  }

  lemma TakenNow(vault: Vault, db: Db, current: Files, handled: set<Change>, now: Db, k: Key)
    requires WellKeyed(vault, current) && k in Fresh(db.states, current) && NewOf(db.states, current, k) !in handled
    requires AppliedSoFar(vault, db, current, DoneBy(db.states, current, handled), now)
    ensures KeyTaken(now.documents, k) <==> KeyTaken(db.documents, k)
    ensures KeyTaken(now.documents, k) ==> Clash(db, current)
  {
    HandleNew(vault, db.states, current, handled, k);
    RenamedHalves(db.states, current, handled);
    TakenBeforeAndNow(vault, db, current, DoneBy(db.states, current, handled), now, k);
    hide AppliedSoFar, DoneBy;
    if d :| d in db.documents && db.documents[d].key == k {
      assert k in Arrived(db.states, current);
    }
  }

  lemma ReadyToRename(vault: Vault, db: Db, current: Files, handled: set<Change>, now: Db, c: Change, k: Key, j: Key)
    requires IsRename(db.states, current, c, k, j) && WellKeyed(vault, current) && c !in handled
    requires AppliedSoFar(vault, db, current, DoneBy(db.states, current, handled), now)
    ensures RenameReady(vault, db, current, DoneBy(db.states, current, handled), now, k, j)
    ensures KeyTaken(now.documents, j) <==> KeyTaken(db.documents, j)
    ensures KeyTaken(db.documents, j) ==> Clash(db, current)
    ensures DocumentOf(db, k) in now.documents
  {
    HandleRename(vault, db.states, current, handled, c, k, j);
    RenamedHalves(db.states, current, handled);
    TakenBeforeAndNow(vault, db, current, DoneBy(db.states, current, handled), now, j);
    RenameRow(vault, db, current, DoneBy(db.states, current, handled), now, k, j);
    hide OldChange, NewChange, AppliedSoFar;
  }
}
