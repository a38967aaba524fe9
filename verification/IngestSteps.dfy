/** Each change a scan reports takes the tables one step closer to the scan's whole effect. */
module IngestSteps {
  import opened Options
  import opened ScanModel
  import opened IngestModel

  // ---------- Which keys the handled changes cover ----------

  ghost function DoneBy(previous: Files, current: Files, handled: set<Change>): Done {
    Done(set k | k in previous && k !in current && OldChange(previous, current, k).value in handled,
         set k | k in current && k !in previous && NewChange(previous, current, k).value in handled,
         set k | k in Edited(previous, current) && EditOf(previous, current, k) in handled)
  }

  lemma NothingHandled(previous: Files, current: Files)
    ensures DoneBy(previous, current, {}) == Done({}, {}, {})
  {
  }

  lemma AllHandled(previous: Files, current: Files)
    ensures DoneBy(previous, current, ChangeSet(previous, current))
      == Done(Departed(previous, current), Arrived(previous, current), Edited(previous, current))
  {
    forall k | k in previous && OldChange(previous, current, k).Some?
      ensures OldChange(previous, current, k).value in ChangeSet(previous, current)
    {
      OldChangeIsReal(Vault(p => p), previous, current, k);
    }
    forall k | k in current && NewChange(previous, current, k).Some?
      ensures NewChange(previous, current, k).value in ChangeSet(previous, current)
    {
      NewChangeIsReal(Vault(p => p), previous, current, k);
    }
    hide ChangeSet;
  }

  /** A change of the difference, read back as the keys it is about. */
  ghost predicate IsRename(previous: Files, current: Files, c: Change, k: Key, j: Key) {
    k in previous && j in current && Target(previous, current, k) == Some(j) && c.document == previous[k].document
    && c == Change(Renamed, Some(previous[k].path), Some(current[j].path), Some(current[j].hash), c.document)
  }

  lemma RenameKeys(vault: Vault, previous: Files, current: Files, c: Change)
    requires WellKeyed(vault, previous) && WellKeyed(vault, current)
    requires c in ChangeSet(previous, current) && c.kind == Renamed
    ensures c.oldPath.Some? && c.newPath.Some?
    ensures IsRename(previous, current, c, vault.pathKey(c.oldPath.value), vault.pathKey(c.newPath.value))
  {
    var h :| h in RenameHashes(previous, current) && c == RenameOf(previous, current, h);
    var k := Only(WithHash(previous, Departed(previous, current), h));
    var j := Only(WithHash(current, Arrived(previous, current), h));
    assert Target(previous, current, k) == Some(j);
  }

  lemma OtherKeys(vault: Vault, previous: Files, current: Files, c: Change)
    requires WellKeyed(vault, previous) && WellKeyed(vault, current)
    requires c in ChangeSet(previous, current) && c.kind != Renamed
    ensures c.kind != ReadFailed && (c.oldPath.Some? || c.newPath.Some?)
    ensures c.newPath.None? ==>
      vault.pathKey(c.oldPath.value) in Gone(previous, current)
      && c == GoneOf(previous, current, vault.pathKey(c.oldPath.value))
    ensures c.newPath.Some? && c.oldPath.None? ==>
      vault.pathKey(c.newPath.value) in Fresh(previous, current)
      && c == NewOf(previous, current, vault.pathKey(c.newPath.value))
    ensures c.newPath.Some? && c.oldPath.Some? ==>
      vault.pathKey(c.newPath.value) in Edited(previous, current)
      && c == EditOf(previous, current, vault.pathKey(c.newPath.value))
  {
    hide Paired, Ambiguous;
  }

  lemma HandleRename(vault: Vault, previous: Files, current: Files, handled: set<Change>, c: Change, k: Key, j: Key)
    requires WellKeyed(vault, previous) && WellKeyed(vault, current) && IsRename(previous, current, c, k, j)
    requires c !in handled
    ensures k !in current && j !in previous && Origin(previous, current, j) == Some(k)
    ensures var done := DoneBy(previous, current, handled);
      && k !in done.gone && j !in done.came
      && DoneBy(previous, current, handled + {c}) == Done(done.gone + {k}, done.came + {j}, done.edited)
  {
    RenamesAreOneToOne(previous, current, k, j);
    forall x | x in previous && x !in current
      ensures OldChange(previous, current, x).value == c <==> x == k
    {
      if Paired(previous, current, previous[x].hash) {
        OnlyIsUnique(WithHash(previous, Departed(previous, current), previous[x].hash), x);
      }
    }
    forall x | x in current && x !in previous
      ensures NewChange(previous, current, x).value == c <==> x == j
    {
      if Paired(previous, current, current[x].hash) {
        OnlyIsUnique(WithHash(current, Arrived(previous, current), current[x].hash), x);
      }
    }
  }

  lemma HandleGone(vault: Vault, previous: Files, current: Files, handled: set<Change>, k: Key)
    requires WellKeyed(vault, previous) && k in Gone(previous, current)
    requires GoneOf(previous, current, k) !in handled
    ensures var done := DoneBy(previous, current, handled);
      && k !in done.gone
      && DoneBy(previous, current, handled + {GoneOf(previous, current, k)})
         == Done(done.gone + {k}, done.came, done.edited)
  {
    hide Ambiguous;
  }

  lemma HandleNew(vault: Vault, previous: Files, current: Files, handled: set<Change>, k: Key)
    requires WellKeyed(vault, current) && k in Fresh(previous, current)
    requires NewOf(previous, current, k) !in handled
    ensures var done := DoneBy(previous, current, handled);
      && k !in done.came
      && DoneBy(previous, current, handled + {NewOf(previous, current, k)})
         == Done(done.gone, done.came + {k}, done.edited)
  {
    hide Ambiguous;
  }

  lemma HandleEdit(vault: Vault, previous: Files, current: Files, handled: set<Change>, k: Key)
    requires WellKeyed(vault, previous) && k in Edited(previous, current)
    requires EditOf(previous, current, k) !in handled
    ensures var done := DoneBy(previous, current, handled);
      && k !in done.edited
      && DoneBy(previous, current, handled + {EditOf(previous, current, k)})
         == Done(done.gone, done.came, done.edited + {k})
  {
    hide Ambiguous;
  }

  // ---------- One change on the tables ----------

  lemma StartApplied(vault: Vault, db: Db, current: Files)
    requires StatesOk(vault, db)
    ensures AppliedSoFar(vault, db, current, Done({}, {}, {}), db)
  {
  }

  ghost function AfterRename(db: Db, current: Files, now: Db, k: Key, j: Key): Db
    requires k in db.states && db.states[k].document.Some? && DocumentOf(db, k) in now.documents && j in current
  {
    var d := DocumentOf(db, k);
    now.(states := (now.states - {k})[j := Recorded(current[j], d)],
         documents := now.documents[d := Moved(now.documents[d], current[j])])
  }

  /** A document whose file has not been handled yet is as it was. */
  lemma Untouched(vault: Vault, db: Db, current: Files, done: Done, now: Db, k: Key)
    requires AppliedSoFar(vault, db, current, done, now) && k in db.states && k !in done.gone
    ensures DocumentOf(db, k) in now.documents
    ensures k !in done.edited ==> now.documents[DocumentOf(db, k)] == db.documents[DocumentOf(db, k)]
  {
    hide Target, Origin, WellKeyed, VersionsApplied, StatesApplied, NewDocumentsApplied;
  }

  ghost predicate RenameReady(vault: Vault, db: Db, current: Files, done: Done, now: Db, k: Key, j: Key) {
    && AppliedSoFar(vault, db, current, done, now) && WellKeyed(vault, current)
    && k in db.states && j in current && Target(db.states, current, k) == Some(j) && Origin(db.states, current, j) == Some(k)
    && k !in done.gone && j !in done.came && k !in current && j !in db.states
    && k !in done.came && k !in done.edited
  }

  lemma RenameStates(db: Db, current: Files, done: Done, now: Db, next: Db, k: Key, j: Key)
    requires forall x :: x in db.states ==> db.states[x].document.Some?
    requires StatesApplied(db, current, done, now)
    requires k in db.states && j in current && Origin(db.states, current, j) == Some(k)
    requires k !in done.came && j !in done.came && j !in db.states
    requires next.states == (now.states - {k})[j := Recorded(current[j], DocumentOf(db, k))]
    ensures StatesApplied(db, current, done.(gone := done.gone + {k}, came := done.came + {j}), next)
  {
    hide Origin;
  }

  lemma RenameOldDocuments(vault: Vault, db: Db, current: Files, done: Done, now: Db, k: Key, j: Key)
    requires RenameReady(vault, db, current, done, now, k, j) && DocumentOf(db, k) in now.documents
    ensures OldDocumentsApplied(db, current, done.(gone := done.gone + {k}, came := done.came + {j}),
                             AfterRename(db, current, now, k, j))
  {
    hide Target, Origin, WellKeyed, VersionsApplied, NewDocumentsApplied;
  }

  lemma RenameNewDocuments(vault: Vault, db: Db, current: Files, done: Done, now: Db, k: Key, j: Key)
    requires RenameReady(vault, db, current, done, now, k, j) && DocumentOf(db, k) in now.documents
    requires StatesApplied(db, current, done.(gone := done.gone + {k}, came := done.came + {j}),
                           AfterRename(db, current, now, k, j))
    ensures NewDocumentsApplied(db, current, done.(gone := done.gone + {k}, came := done.came + {j}),
                             AfterRename(db, current, now, k, j))
  {
    hide Target, Origin, WellKeyed, VersionsApplied, OldDocumentsApplied;
  }

  lemma RenameRow(vault: Vault, db: Db, current: Files, done: Done, now: Db, k: Key, j: Key)
    requires RenameReady(vault, db, current, done, now, k, j)
    ensures DocumentOf(db, k) in now.documents
    ensures AppliedSoFar(vault, db, current, done.(gone := done.gone + {k}, came := done.came + {j}),
                         AfterRename(db, current, now, k, j))
  {
    hide Target, Origin, WellKeyed, StatesApplied, OldDocumentsApplied, NewDocumentsApplied;
    Untouched(vault, db, current, done, now, k);
    RenameStates(db, current, done, now, AfterRename(db, current, now, k, j), k, j);
    RenameOldDocuments(vault, db, current, done, now, k, j);
    RenameNewDocuments(vault, db, current, done, now, k, j);
    assert RetiredVersions(db, current, done.gone + {k}) == RetiredVersions(db, current, done.gone);
  }

  /** The file state goes, and with it the document's current version and that version's rows. */
  ghost function AfterRemove(db: Db, now: Db, k: Key): Db
    requires k in db.states && db.states[k].document.Some? && DocumentOf(db, k) in now.documents
  {
    var d := DocumentOf(db, k);
    var version := now.documents[d].current;
    now.(states := now.states - {k},
         documents := now.documents[d := Retired(now.documents[d])],
         versions := if version.Some? && version.value in now.versions
                     then now.versions[version.value := Superseded] else now.versions,
         derived := if version.Some? then now.derived - {version.value} else now.derived)
  }

  ghost predicate RemoveReady(vault: Vault, db: Db, current: Files, done: Done, now: Db, k: Key) {
    && AppliedSoFar(vault, db, current, done, now)
    && k in db.states && Target(db.states, current, k).None?
    && k !in done.gone && k !in done.came && k !in done.edited
  }

  lemma RemoveStates(db: Db, current: Files, done: Done, now: Db, next: Db, k: Key)
    requires forall x :: x in db.states ==> db.states[x].document.Some?
    requires StatesApplied(db, current, done, now) && next.states == now.states - {k}
    requires k !in done.came
    ensures StatesApplied(db, current, done.(gone := done.gone + {k}), next)
  {
    hide Origin;
  }

  lemma RemoveOldDocuments(vault: Vault, db: Db, current: Files, done: Done, now: Db, k: Key)
    requires RemoveReady(vault, db, current, done, now, k) && DocumentOf(db, k) in now.documents
    ensures OldDocumentsApplied(db, current, done.(gone := done.gone + {k}), AfterRemove(db, now, k))
  {
    hide Target, Origin, WellKeyed, VersionsApplied, NewDocumentsApplied;
  }

  lemma RemoveNewDocuments(vault: Vault, db: Db, current: Files, done: Done, now: Db, k: Key)
    requires RemoveReady(vault, db, current, done, now, k) && DocumentOf(db, k) in now.documents
    requires StatesApplied(db, current, done.(gone := done.gone + {k}), AfterRemove(db, now, k))
    ensures NewDocumentsApplied(db, current, done.(gone := done.gone + {k}), AfterRemove(db, now, k))
  {
    hide Target, Origin, WellKeyed, VersionsApplied, OldDocumentsApplied;
  }

  lemma RemoveRow(vault: Vault, db: Db, current: Files, done: Done, now: Db, k: Key)
    requires RemoveReady(vault, db, current, done, now, k)
    ensures DocumentOf(db, k) in now.documents
    ensures AppliedSoFar(vault, db, current, done.(gone := done.gone + {k}), AfterRemove(db, now, k))
  {
    hide Target, Origin, WellKeyed, StatesApplied, OldDocumentsApplied, NewDocumentsApplied;
    Untouched(vault, db, current, done, now, k);
    RemoveStates(db, current, done, now, AfterRemove(db, now, k), k);
    RemoveOldDocuments(vault, db, current, done, now, k);
    RemoveNewDocuments(vault, db, current, done, now, k);
    var version := db.documents[DocumentOf(db, k)].current;
    assert RetiredVersions(db, current, done.gone + {k})
      == RetiredVersions(db, current, done.gone) + (if version.Some? then {version.value} else {});
  }

  ghost function AfterCreate(current: Files, now: Db, k: Key, d: DocId): Db
    requires k in current
  {
    now.(states := now.states[k := Recorded(current[k], d)],
         documents := now.documents[d := Document(current[k].path, k, Active, None)])
  }

  ghost predicate CreateReady(vault: Vault, db: Db, current: Files, done: Done, now: Db, k: Key, d: DocId) {
    && AppliedSoFar(vault, db, current, done, now)
    && k in current && k !in db.states && Origin(db.states, current, k).None?
    && k !in done.gone && k !in done.came && k !in done.edited && d !in now.documents
  }

  lemma CreateStates(vault: Vault, db: Db, current: Files, done: Done, now: Db, k: Key, d: DocId)
    requires CreateReady(vault, db, current, done, now, k, d) && d !in db.documents
    ensures StatesApplied(db, current, done.(came := done.came + {k}), AfterCreate(current, now, k, d))
  {
    hide Target, Origin, WellKeyed, VersionsApplied, OldDocumentsApplied, NewDocumentsApplied;
  }

  lemma CreateOldDocuments(vault: Vault, db: Db, current: Files, done: Done, now: Db, k: Key, d: DocId)
    requires CreateReady(vault, db, current, done, now, k, d)
    ensures OldDocumentsApplied(db, current, done.(came := done.came + {k}), AfterCreate(current, now, k, d))
  {
    hide Target, Origin, WellKeyed, VersionsApplied, NewDocumentsApplied;
  }

  lemma CreateNewDocuments(vault: Vault, db: Db, current: Files, done: Done, now: Db, k: Key, d: DocId)
    requires CreateReady(vault, db, current, done, now, k, d)
    requires StatesApplied(db, current, done.(came := done.came + {k}), AfterCreate(current, now, k, d))
    ensures NewDocumentsApplied(db, current, done.(came := done.came + {k}), AfterCreate(current, now, k, d))
  {
    hide Target, Origin, WellKeyed, VersionsApplied, OldDocumentsApplied;
  }

  lemma CreateRow(vault: Vault, db: Db, current: Files, done: Done, now: Db, k: Key, d: DocId)
    requires CreateReady(vault, db, current, done, now, k, d)
    ensures AppliedSoFar(vault, db, current, done.(came := done.came + {k}), AfterCreate(current, now, k, d))
  {
    hide Target, Origin, WellKeyed, VersionsApplied, OldDocumentsApplied, NewDocumentsApplied, StatesApplied;
    OldDocumentsStay(vault, db, current, done, now);
    CreateStates(vault, db, current, done, now, k, d);
    CreateOldDocuments(vault, db, current, done, now, k, d);
    CreateNewDocuments(vault, db, current, done, now, k, d);
    VersionsIgnoreTables(db, current, done, done.(came := done.came + {k}), now, AfterCreate(current, now, k, d));
  }

  lemma OldDocumentsStay(vault: Vault, db: Db, current: Files, done: Done, now: Db)
    requires AppliedSoFar(vault, db, current, done, now)
    ensures db.documents.Keys <= now.documents.Keys
  {
    hide Target, Origin, WellKeyed, VersionsApplied, DocumentAfter, StatesApplied;
    forall d | d in db.documents ensures d in now.documents {
      if k :| k in db.states && DocumentOf(db, k) == d {
      }
    }
  }

  lemma VersionsIgnoreTables(db: Db, current: Files, done: Done, more: Done, now: Db, next: Db)
    requires forall k :: k in db.states ==> db.states[k].document.Some? && DocumentOf(db, k) in db.documents
    requires VersionsApplied(db, current, done, now) && more.gone == done.gone
    requires next.versions == now.versions && next.derived == now.derived
    ensures VersionsApplied(db, current, more, next)
  {
    hide RetiredVersions;
  }

  ghost function AfterEdit(db: Db, current: Files, now: Db, k: Key): Db
    requires k in db.states && db.states[k].document.Some? && DocumentOf(db, k) in now.documents && k in current
  {
    var d := DocumentOf(db, k);
    now.(states := now.states[k := Recorded(current[k], d)],
         documents := now.documents[d := Edit(now.documents[d], current[k])])
  }

  ghost predicate EditReady(vault: Vault, db: Db, current: Files, done: Done, now: Db, k: Key) {
    && AppliedSoFar(vault, db, current, done, now)
    && k in db.states && k in current && k !in done.gone && k !in done.came && k !in done.edited
  }

  lemma EditStates(vault: Vault, db: Db, current: Files, done: Done, now: Db, k: Key)
    requires EditReady(vault, db, current, done, now, k)
    ensures DocumentOf(db, k) in now.documents
    ensures StatesApplied(db, current, done.(edited := done.edited + {k}), AfterEdit(db, current, now, k))
  {
    Untouched(vault, db, current, done, now, k);
    hide Target, Origin, WellKeyed, VersionsApplied, OldDocumentsApplied, NewDocumentsApplied;
  }

  lemma EditOldDocuments(vault: Vault, db: Db, current: Files, done: Done, now: Db, k: Key)
    requires EditReady(vault, db, current, done, now, k) && DocumentOf(db, k) in now.documents
    ensures OldDocumentsApplied(db, current, done.(edited := done.edited + {k}), AfterEdit(db, current, now, k))
  {
    hide Target, Origin, WellKeyed, VersionsApplied, NewDocumentsApplied;
  }

  lemma EditNewDocuments(vault: Vault, db: Db, current: Files, done: Done, now: Db, k: Key)
    requires EditReady(vault, db, current, done, now, k) && DocumentOf(db, k) in now.documents
    requires StatesApplied(db, current, done.(edited := done.edited + {k}), AfterEdit(db, current, now, k))
    ensures NewDocumentsApplied(db, current, done.(edited := done.edited + {k}), AfterEdit(db, current, now, k))
  {
    hide Target, Origin, WellKeyed, VersionsApplied, OldDocumentsApplied;
  }

  lemma EditRow(vault: Vault, db: Db, current: Files, done: Done, now: Db, k: Key)
    requires EditReady(vault, db, current, done, now, k)
    ensures DocumentOf(db, k) in now.documents
    ensures AppliedSoFar(vault, db, current, done.(edited := done.edited + {k}), AfterEdit(db, current, now, k))
  {
    hide Target, Origin, WellKeyed, VersionsApplied, StatesApplied, OldDocumentsApplied, NewDocumentsApplied;
    EditStates(vault, db, current, done, now, k);
    EditOldDocuments(vault, db, current, done, now, k);
    EditNewDocuments(vault, db, current, done, now, k);
    VersionsIgnoreTables(db, current, done, done.(edited := done.edited + {k}), now, AfterEdit(db, current, now, k));
  }

  // ---------- The unique path key ----------

  predicate KeyTaken(documents: map<DocId, Document>, key: Key) {
    exists d :: d in documents && documents[d].key == key
  }

  /** At any moment of the run, an arriving key is taken exactly when it was taken before the run. */
  lemma TakenBeforeAndNow(vault: Vault, db: Db, current: Files, done: Done, now: Db, j: Key)
    requires AppliedSoFar(vault, db, current, done, now) && WellKeyed(vault, current)
    requires j in current && j !in db.states && j !in done.came
    requires forall k :: k in done.gone && k in db.states && Target(db.states, current, k).Some? ==>
      Target(db.states, current, k).value in done.came
    ensures KeyTaken(now.documents, j) <==> KeyTaken(db.documents, j)
  {
    hide Origin, VersionsApplied, RetiredVersions;
    if d :| d in db.documents && db.documents[d].key == j {
      assert d in now.documents && now.documents[d] == db.documents[d];
    }
    if d :| d in now.documents && now.documents[d].key == j {
      assert d in db.documents;
      if k :| k in db.states && DocumentOf(db, k) == d {
        TargetArrives(db.states, current, k);
        assert false;
      } else {
        assert now.documents[d] == db.documents[d];
      }
    }
  }

  lemma TargetArrives(previous: Files, current: Files, k: Key)
    requires k in previous && Target(previous, current, k).Some?
    ensures Target(previous, current, k).value in Arrived(previous, current)
  {
  }
}
