/** Trashing, restoring and deleting folders together with the documents in them. */
module FolderDeletion {
  import opened Wrappers
  import opened Forest
  import opened Library
  import opened BlobStore
  import opened Folders
  import opened FolderServices

  // ---------------------------------------------------------------- trash and restore

  function TrashedFolders(fs: FolderTable, ids: set<FolderId>, owner: OwnerId, now: Time): FolderTable {
    map f | f in fs ::
      if fs[f].owner == owner && f in ids && fs[f].kind == Normal then fs[f].(trashed := true, trashedAt := Some(now))
      else fs[f]
  }

  function TrashedDocuments(docs: DocumentTable, ids: set<FolderId>, owner: OwnerId, now: Time): DocumentTable {
    map d | d in docs ::
      if docs[d].owner == owner && docs[d].folder in ids && !docs[d].trashed then
        docs[d].(trashed := true, trashedAt := Some(now), inbox := false, trashedFrom := Some(docs[d].folder))
      else docs[d]
  }

  function RestoredFolders(fs: FolderTable, ids: set<FolderId>, owner: OwnerId): FolderTable {
    map f | f in fs ::
      if fs[f].owner == owner && f in ids && fs[f].trashed then fs[f].(trashed := false, trashedAt := None) else fs[f]
  }

  function RestoredDocuments(docs: DocumentTable, ids: set<FolderId>, owner: OwnerId): DocumentTable {
    map d | d in docs ::
      if docs[d].owner == owner && docs[d].folder in ids && docs[d].trashed then
        docs[d].(trashed := false, trashedAt := None, trashedFrom := None)
      else docs[d]
  }

  lemma SameParentsSameSubtree(fs: FolderTable, fs': FolderTable, top: FolderId)
    requires fs.Keys == fs'.Keys && forall f :: f in fs ==> fs[f].parent == fs'[f].parent
    ensures Subtree(fs, top) == Subtree(fs', top)
  {
    forall x
      ensures Under(fs, top, x) <==> Under(fs', top, x)
    {
      forall path: seq<FolderId>
        ensures Climbs(fs, path, x, top) <==> Climbs(fs', path, x, top)
      {
      }
    }
  }

  /**
    After trashing, the whole subtree and every document in it are in the trash, and nothing else is touched: a document
    remembers where it lay and leaves the inbox queue, one that was in the trash before is left alone.
   */
  lemma TrashTakesSubtree(fs: FolderTable, docs: DocumentTable, top: FolderId, now: Time)
    requires LibraryOk(fs, docs) && top in fs && fs[top].kind == Normal
    ensures var fs' := TrashedFolders(fs, Subtree(fs, top), fs[top].owner, now);
      forall f :: f in fs ==> f in fs' && if Under(fs, top, f) then fs'[f].trashed && fs'[f].trashedAt == Some(now) else fs'[f] == fs[f]
    ensures var docs' := TrashedDocuments(docs, Subtree(fs, top), fs[top].owner, now);
      forall d :: d in docs ==> d in docs' && WentAlong(fs, top, docs[d], docs'[d], now)
  {
    hide Under;
    var rank :| Ranked(fs, rank);
    forall x | x in fs && Under(fs, top, x)
      ensures fs[x].kind == Normal && fs[x].owner == fs[top].owner
    {
      SubtreeIsOrdinary(fs, rank, top, x);
    }
  }

  predicate WentToTrash(doc: Document, doc': Document, now: Time) {
    && doc'.trashed && doc'.trashedAt == Some(now) && !doc'.inbox && doc'.trashedFrom == Some(doc.folder)
    && doc == doc'.(trashed := doc.trashed, trashedAt := doc.trashedAt, inbox := doc.inbox, trashedFrom := doc.trashedFrom)
  }

  /** A document goes to the trash with the folder exactly when it lies below it and is not there yet. */
  ghost predicate WentAlong(fs: FolderTable, top: FolderId, doc: Document, doc': Document, now: Time) {
    if Under(fs, top, doc.folder) && !doc.trashed then WentToTrash(doc, doc', now) else doc' == doc
  }

  predicate NeverTrashed(fs: FolderTable, f: FolderId)
    requires f in fs
  {
    !fs[f].trashed && fs[f].trashedAt == None
  }

  predicate PlainDocument(docs: DocumentTable, d: DocId)
    requires d in docs
  {
    !docs[d].trashed && docs[d].trashedAt == None && docs[d].trashedFrom == None && !docs[d].inbox
  }

  /**
    Restoring right after trashing undoes it exactly when nothing in the subtree bore a trash mark before and no
    document of it was in the inbox queue: an item trashed earlier on its own comes back with the folder, and the
    inbox flag does not come back.
   */
  lemma RestoreUndoesTrash(fs: FolderTable, docs: DocumentTable, top: FolderId, now: Time)
    requires LibraryOk(fs, docs) && top in fs && fs[top].kind == Normal
    ensures var ids, owner := Subtree(fs, top), fs[top].owner;
      var fs1, docs1 := TrashedFolders(fs, ids, owner, now), TrashedDocuments(docs, ids, owner, now);
      && Subtree(fs1, top) == ids
      && (RestoredFolders(fs1, ids, owner) == fs <==> forall f :: f in ids ==> NeverTrashed(fs, f))
      && (RestoredDocuments(docs1, ids, owner) == docs <==> forall d :: d in docs && docs[d].folder in ids ==> PlainDocument(docs, d))
  {
    var ids, owner := Subtree(fs, top), fs[top].owner;
    hide TrashedFolders, TrashedDocuments, RestoredFolders, RestoredDocuments;
    RootsKept(fs, ids, owner, now);
    SameParentsSameSubtree(fs, TrashedFolders(fs, ids, owner, now), top);
    hide Under;
    var rank :| Ranked(fs, rank);
    forall x | x in ids
      ensures fs[x].kind == Normal && fs[x].owner == owner
    {
      SubtreeIsOrdinary(fs, rank, top, x);
    }
    FoldersThereAndBack(fs, ids, owner, now);
    DocumentsThereAndBack(docs, ids, owner, now);
  }

  lemma RootsKept(fs: FolderTable, ids: set<FolderId>, owner: OwnerId, now: Time)
    ensures var fs' := TrashedFolders(fs, ids, owner, now);
      fs.Keys == fs'.Keys && forall f :: f in fs ==> fs[f].parent == fs'[f].parent
  {
  }

  lemma FoldersThereAndBack(fs: FolderTable, ids: set<FolderId>, owner: OwnerId, now: Time)
    requires ids <= fs.Keys && forall f :: f in ids ==> fs[f].kind == Normal && fs[f].owner == owner
    ensures RestoredFolders(TrashedFolders(fs, ids, owner, now), ids, owner) == fs <==> forall f :: f in ids ==> NeverTrashed(fs, f)
  {
    var fs2 := RestoredFolders(TrashedFolders(fs, ids, owner, now), ids, owner);
    assert forall f :: f in fs ==> fs2[f] == if f in ids then fs[f].(trashed := false, trashedAt := None) else fs[f];
    if fs2 == fs {
      assert forall f :: f in ids ==> fs2[f] == fs[f];
    }
  }

  lemma DocumentsThereAndBack(docs: DocumentTable, ids: set<FolderId>, owner: OwnerId, now: Time)
    requires forall d :: d in docs && docs[d].folder in ids ==> docs[d].owner == owner
    ensures RestoredDocuments(TrashedDocuments(docs, ids, owner, now), ids, owner) == docs
      <==> forall d :: d in docs && docs[d].folder in ids ==> PlainDocument(docs, d)
  {
    var docs2 := RestoredDocuments(TrashedDocuments(docs, ids, owner, now), ids, owner);
    forall d | d in docs
      ensures docs2[d] == docs[d] <==> (docs[d].folder in ids ==> PlainDocument(docs, d))
    {
    }
    if docs2 == docs {
      assert forall d :: d in docs ==> docs2[d] == docs[d];
    }
  }

  lemma MarksKeepLibrary(fs: FolderTable, fs': FolderTable, docs: DocumentTable, docs': DocumentTable)
    requires LibraryOk(fs, docs) && fs.Keys == fs'.Keys && docs'.Keys <= docs.Keys
    requires forall f :: f in fs ==> fs'[f].(trashed := fs[f].trashed, trashedAt := fs[f].trashedAt) == fs[f]
    requires forall d :: d in docs' ==> docs'[d].folder == docs[d].folder && docs'[d].owner == docs[d].owner
    ensures LibraryOk(fs', docs')
  {
    MarkFolders(fs, fs');
  }

  ghost predicate TrashOutcome(fs: FolderTable, docs: DocumentTable, fs': FolderTable, docs': DocumentTable, f: FolderId, now: Time) {
    && f in fs
    && if fs[f].trashed then fs' == fs && docs' == docs else
      && fs' == TrashedFolders(fs, Subtree(fs, f), fs[f].owner, now)
      && docs' == TrashedDocuments(docs, Subtree(fs, f), fs[f].owner, now)
  }

  /** `trash_folder`: an ordinary folder goes to the trash with its subtree; trashing it again does nothing. */
  method TrashFolder(db: Session, f: FolderId, owner: OwnerId, now: Time) returns (r: Result<FolderId, Error>)
    requires db.Ok()
    modifies db`folders, db`documents
    ensures db.Ok()
    ensures r == match FolderRefusal(old(db.folders), f, owner) case Some(e) => Err(e) case None => Ok(f)
    ensures r.Err? ==> db.folders == old(db.folders) && db.documents == old(db.documents)
    ensures r.Ok? ==> TrashOutcome(old(db.folders), old(db.documents), db.folders, db.documents, f, now)
    ensures SameFiles(old(db.documents), db.documents)
  {
    hide IsForest, Placed, Subtree;
    if f !in db.folders || db.folders[f].owner != owner {
      return Err(NotFound);
    }
    if db.folders[f].kind != Normal {
      return Err(Invalid);
    }
    if db.folders[f].trashed {
      return Ok(f);
    }
    var ids := DescendantIds(db.folders, f, owner);
    ghost var fs, docs := db.folders, db.documents;
    db.folders := TrashedFolders(db.folders, ids, owner, now);
    db.documents := TrashedDocuments(db.documents, ids, owner, now);
    MarksKeepLibrary(fs, db.folders, docs, db.documents);
    return Ok(f);
  }

  /** Why a service refuses to work on the folder: it must exist, belong to the owner and be an ordinary one. */
  function FolderRefusal(fs: FolderTable, f: FolderId, owner: OwnerId): Option<Error> {
    if f !in fs || fs[f].owner != owner then Some(NotFound)
    else if fs[f].kind != Normal then Some(Invalid)
    else None
  }

  ghost predicate RestoreOutcome(fs: FolderTable, docs: DocumentTable, fs': FolderTable, docs': DocumentTable, f: FolderId) {
    && f in fs
    && if !fs[f].trashed then fs' == fs && docs' == docs else
      && fs' == RestoredFolders(fs, Subtree(fs, f), fs[f].owner)
      && docs' == RestoredDocuments(docs, Subtree(fs, f), fs[f].owner)
  }

  /** `restore_folder`: a trashed folder comes back with everything trashed below it. */
  method RestoreFolder(db: Session, f: FolderId, owner: OwnerId) returns (r: Result<FolderId, Error>)
    requires db.Ok()
    modifies db`folders, db`documents
    ensures db.Ok()
    ensures r == match FolderRefusal(old(db.folders), f, owner) case Some(e) => Err(e) case None => Ok(f)
    ensures r.Err? ==> db.folders == old(db.folders) && db.documents == old(db.documents)
    ensures r.Ok? ==> RestoreOutcome(old(db.folders), old(db.documents), db.folders, db.documents, f)
    ensures SameFiles(old(db.documents), db.documents)
  {
    hide IsForest, Placed, Subtree;
    if f !in db.folders || db.folders[f].owner != owner {
      return Err(NotFound);
    }
    if db.folders[f].kind != Normal {
      return Err(Invalid);
    }
    if !db.folders[f].trashed {
      return Ok(f);
    }
    var ids := DescendantIds(db.folders, f, owner);
    ghost var fs, docs := db.folders, db.documents;
    db.folders := RestoredFolders(db.folders, ids, owner);
    db.documents := RestoredDocuments(db.documents, ids, owner);
    MarksKeepLibrary(fs, db.folders, docs, db.documents);
    return Ok(f);
  }

  // ---------------------------------------------------------------- deleting

  /** The origin a trashed document remembers is cleared when that folder's row goes away. */
  function Unlinked(doc: Document, gone: set<FolderId>): Document {
    if doc.trashedFrom.Some? && doc.trashedFrom.value in gone then doc.(trashedFrom := None) else doc
  }

  function Hoisted(fs: FolderTable, moved: set<FolderId>, target: FolderId): FolderTable {
    map f | f in fs :: if f in moved then fs[f].(parent := Some(target)) else fs[f]
  }

  function DocumentsHoisted(docs: DocumentTable, f: FolderId, target: FolderId, toInbox: bool): DocumentTable {
    map d | d in docs ::
      Unlinked(if docs[d].folder == f then docs[d].(folder := target, inbox := docs[d].inbox || toInbox) else docs[d], {f})
  }

  function DocumentsBinned(docs: DocumentTable, ids: set<FolderId>, trash: FolderId, now: Time): DocumentTable {
    map d | d in docs ::
      Unlinked(
        if docs[d].folder in ids then docs[d].(folder := trash, trashed := true, trashedAt := Some(now), inbox := false)
        else docs[d], ids)
  }

  /** A child's name is in use where the children are to go; the deleted folder itself still counts. */
  ghost predicate HoistBlocked(fs: FolderTable, f: FolderId, target: FolderId, owner: OwnerId) {
    exists c :: Blocking(fs, f, target, owner, c)
  }

  ghost predicate Blocking(fs: FolderTable, f: FolderId, target: FolderId, owner: OwnerId, c: FolderId) {
    c in Children(fs, f) && Named(fs, owner, target, fs[c].name) != {}
  }

  /** Hoisting some children does not put the target below another child. */
  lemma {:induction false} TargetStaysOutside(
    fs: FolderTable, rank: FolderId -> nat, f: FolderId, moved: set<FolderId>, target: FolderId, c: FolderId, x: FolderId)
    requires Ranked(fs, rank) && moved <= Children(fs, f) && c in Children(fs, f) && !Under(fs, f, x)
    ensures !Under(Hoisted(fs, moved, target), c, x)
    decreases rank(x)
  {
    var fs' := Hoisted(fs, moved, target);
    UnderSelf(fs, f);
    assert forall y :: y in Children(fs, f) ==> ParentIs(fs, y, f);
    UnderStep(fs, f, c, f);
    if Under(fs', c, x) {
      UnderHasParent(fs', c, x);
      if x in moved {
        UnderStep(fs, f, x, f);
      }
      var p := fs[x].parent.value;
      assert ParentIs(fs, x, p);
      UnderStep(fs, f, x, p);
      TargetStaysOutside(fs, rank, f, moved, target, c, p);
    }
  }

  /** Each child is refused only when its name was in use at the target from the start. */
  lemma HoistStep(fs: FolderTable, f: FolderId, moved: set<FolderId>, target: FolderId, owner: OwnerId, c: FolderId)
    requires IsForest(fs) && f in fs && fs[f].kind == Normal && fs[f].owner == owner
    requires target in fs && fs[target].owner == owner && fs[target].kind != Trash && !Under(fs, f, target)
    requires moved <= Children(fs, f) && c in Children(fs, f) && c !in moved
    ensures MoveRefusal(Hoisted(fs, moved, target), c, target, owner) ==
      if Blocking(fs, f, target, owner, c) then Some(Conflict) else None
    ensures Reparented(Hoisted(fs, moved, target), c, target) == Hoisted(fs, moved + {c}, target)
  {
    var now := Hoisted(fs, moved, target);
    assert RowOk(fs, c);
    assert !Under(now, c, target) by {
      var rank :| Ranked(fs, rank);
      TargetStaysOutside(fs, rank, f, moved, target, c, target);
    }
    hide Under;
    assert f != target by { UnderSelf(fs, f); }
    var name := fs[c].name;
    forall g | g in Named(now, owner, target, name) - {c}
      ensures g in Named(fs, owner, target, name)
    {
      assert Siblings(fs, g, c) <==> g in moved;
    }
    forall g | g in Named(fs, owner, target, name)
      ensures g in Named(now, owner, target, name) - {c}
    {
    }
  }

  lemma NotBelow(fs: FolderTable, f: FolderId, target: FolderId)
    requires IsForest(fs) && f in fs && fs[f].kind == Normal
    requires fs[f].parent == Some(target) || (target in fs && fs[target].kind != Normal)
    ensures !Under(fs, f, target)
  {
    var rank :| Ranked(fs, rank);
    if Under(fs, f, target) {
      UnderRank(fs, rank, f, target);
      assert fs[f].parent == Some(target) ==> ParentIs(fs, f, target);
      SubtreeIsOrdinary(fs, rank, f, target);
    }
  }

  /** The loop that moves every child, one `move_folder` at a time. */
  method HoistChildren(db: Session, f: FolderId, target: FolderId, owner: OwnerId) returns (ok: bool)
    requires db.Ok() && f in db.folders && db.folders[f].kind == Normal && db.folders[f].owner == owner
    requires target in db.folders && db.folders[target].owner == owner && db.folders[target].kind != Trash
    requires !Under(db.folders, f, target)
    modifies db`folders
    ensures db.Ok()
    ensures ok <==> !HoistBlocked(old(db.folders), f, target, owner)
    ensures ok ==> db.folders == Hoisted(old(db.folders), Children(old(db.folders), f), target)
  {
    hide IsForest, Placed, Under, Named;
    ghost var fs := db.folders;
    var todo := Children(db.folders, f);
    ghost var moved: set<FolderId> := {};
    while todo != {}
      invariant db.Ok() && moved + todo == Children(fs, f) && moved !! todo
      invariant db.folders == Hoisted(fs, moved, target)
      invariant forall c :: c in moved ==> !Blocking(fs, f, target, owner, c)
    {
      hide Blocking, Hoisted, Children;
      var c :| c in todo;
      HoistStep(fs, f, moved, target, owner, c);
      var r := MoveFolder(db, c, target, owner);
      if r.Err? {
        return false;
      }
      todo, moved := todo - {c}, moved + {c};
    }
    return true;
  }

  lemma HoistedDocumentsPlaced(fs: FolderTable, fs': FolderTable, docs: DocumentTable, f: FolderId, target: FolderId, toInbox: bool)
    requires Placed(fs, docs) && f in fs && target in fs && target != f && fs[target].owner == fs[f].owner
    requires fs'.Keys == fs.Keys && forall g :: g in fs ==> fs'[g].owner == fs[g].owner
    ensures Placed(fs' - {f}, DocumentsHoisted(docs, f, target, toInbox))
  {
  }

  lemma HoistedSameFiles(docs: DocumentTable, f: FolderId, target: FolderId, toInbox: bool)
    ensures SameFiles(docs, DocumentsHoisted(docs, f, target, toInbox))
  {
  }

  lemma HoistedKeepsLibrary(fs: FolderTable, docs: DocumentTable, f: FolderId, target: FolderId, toInbox: bool)
    requires IsForest(fs) && f in fs && fs[f].kind == Normal && target in fs && target != f && fs[target].owner == fs[f].owner
    requires IsForest(Hoisted(fs, Children(fs, f), target)) && Placed(fs, docs)
    ensures LibraryOk(Hoisted(fs, Children(fs, f), target) - {f}, DocumentsHoisted(docs, f, target, toInbox))
    ensures SameFiles(docs, DocumentsHoisted(docs, f, target, toInbox))
  {
    hide IsForest, Placed, SameFiles, DocumentsHoisted;
    var fs' := Hoisted(fs, Children(fs, f), target);
    assert forall x, p :: ParentIs(fs', x, p) && p == f ==> x !in Children(fs, f) && x in fs;
    RemoveFolders(fs', {f});
    HoistedDocumentsPlaced(fs, fs', docs, f, target, toInbox);
    HoistedSameFiles(docs, f, target, toInbox);
  }

  /** `move_to_parent` and `move_to_inbox` once the target is known. */
  method DeleteHoisting(db: Session, f: FolderId, target: FolderId, owner: OwnerId, toInbox: bool) returns (ok: bool)
    requires db.Ok() && f in db.folders && db.folders[f].kind == Normal && db.folders[f].owner == owner
    requires target in db.folders && db.folders[target].owner == owner
    requires db.folders[f].parent == Some(target) || db.folders[target].kind == Inbox
    modifies db`folders, db`documents
    ensures db.Ok()
    ensures ok <==> !HoistBlocked(old(db.folders), f, target, owner)
    ensures if !ok then db.folders == old(db.folders) && db.documents == old(db.documents) else
      && db.folders == Hoisted(old(db.folders), Children(old(db.folders), f), target) - {f}
      && db.documents == DocumentsHoisted(old(db.documents), f, target, toInbox)
      && SameFiles(old(db.documents), db.documents)
  {
    hide Under, Placed;
    var saved := db.folders;
    assert db.folders[target].kind != Trash && f != target by {
      assert RowOk(db.folders, f);
      NotBelow(db.folders, f, target);
      UnderSelf(db.folders, f);
    }
    hide IsForest, HoistBlocked, Hoisted, SameFiles, DocumentsHoisted;
    NotBelow(saved, f, target);
    ok := HoistChildren(db, f, target, owner);
    if !ok {
      db.folders := saved;
      return;
    }
    HoistedKeepsLibrary(saved, db.documents, f, target, toInbox);
    HoistedKeys(saved, Children(saved, f), target);
    db.documents := DocumentsHoisted(db.documents, f, target, toInbox);
    db.folders := db.folders - {f};
  }

  /**
    What moving out of a deleted folder means: its children have the target as their parent, and its documents lie in
    the target, in the inbox queue when asked; apart from the forgotten origin no other row changes.
   */
  lemma HoistedFoldersMeaning(fs: FolderTable, f: FolderId, target: FolderId)
    requires f in fs && target != f
    ensures var fs' := Hoisted(fs, Children(fs, f), target) - {f};
      && fs'.Keys == fs.Keys - {f}
      && forall g :: g in fs' ==> fs'[g] == if fs[g].parent == Some(f) then fs[g].(parent := Some(target)) else fs[g]
  {
  }

  lemma HoistedDocumentsMeaning(docs: DocumentTable, f: FolderId, target: FolderId, toInbox: bool)
    requires target != f
    ensures var docs' := DocumentsHoisted(docs, f, target, toInbox);
      && docs'.Keys == docs.Keys
      && (forall d :: d in docs && docs[d].folder == f ==> docs'[d].folder == target && docs'[d].inbox == (docs[d].inbox || toInbox))
      && (forall d :: d in docs && docs[d].folder != f ==> docs'[d].folder == docs[d].folder && docs'[d].inbox == docs[d].inbox)
      && (forall d :: d in docs ==> OnlyOriginLost(docs[d].(folder := docs'[d].folder, inbox := docs'[d].inbox), docs'[d], {f}))
  {
  }

  /** A document forgets its origin exactly when that folder is gone, and nothing else of it changes. */
  predicate OnlyOriginLost(doc: Document, doc': Document, gone: set<FolderId>) {
    && doc'.(trashedFrom := doc.trashedFrom) == doc
    && doc'.trashedFrom == if doc.trashedFrom.Some? && doc.trashedFrom.value in gone then None else doc.trashedFrom
  }

  /**
    What deleting with the documents means: each document of the subtree lies in the trash folder, trashed at that time
    and out of the inbox queue; apart from forgotten origins no other document changes.
   */
  lemma BinMeaning(docs: DocumentTable, ids: set<FolderId>, trash: FolderId, now: Time)
    ensures var docs' := DocumentsBinned(docs, ids, trash, now);
      && docs'.Keys == docs.Keys
      && (forall d :: d in docs && docs[d].folder in ids ==>
          docs'[d].folder == trash && docs'[d].trashed && docs'[d].trashedAt == Some(now) && !docs'[d].inbox)
      && (forall d :: d in docs && docs[d].folder !in ids ==> OnlyOriginLost(docs[d], docs'[d], ids))
      && (forall d :: d in docs && docs'[d].trashedFrom.Some? ==> docs'[d].trashedFrom.value !in ids)
  {
  }

  lemma HoistedKeys(fs: FolderTable, moved: set<FolderId>, target: FolderId)
    ensures Hoisted(fs, moved, target).Keys == fs.Keys
  {
  }

  lemma BinnedDocumentsPlaced(fs: FolderTable, docs: DocumentTable, ids: set<FolderId>, owner: OwnerId, trash: FolderId, now: Time)
    requires Placed(fs, docs) && trash in fs && trash !in ids && fs[trash].owner == owner
    requires forall x :: x in ids && x in fs ==> fs[x].owner == owner
    ensures Placed(fs - ids, DocumentsBinned(docs, ids, trash, now))
    ensures SameFiles(docs, DocumentsBinned(docs, ids, trash, now))
  {
  }

  lemma BinnedKeepsLibrary(fs: FolderTable, docs: DocumentTable, f: FolderId, trash: FolderId, now: Time)
    requires LibraryOk(fs, docs) && f in fs && fs[f].kind == Normal && trash in OfKind(fs, fs[f].owner, Trash)
    ensures LibraryOk(fs - Subtree(fs, f), DocumentsBinned(docs, Subtree(fs, f), trash, now))
    ensures DocumentsBinned(docs, Subtree(fs, f), trash, now).Keys == docs.Keys
    ensures SameFiles(docs, DocumentsBinned(docs, Subtree(fs, f), trash, now))
  {
    hide Placed, SameFiles, DocumentsBinned, Under, RowOk;
    var ids := Subtree(fs, f);
    NotBelow(fs, f, trash);
    forall x, p | ParentIs(fs, x, p) && p in ids
      ensures x in ids
    {
      UnderStep(fs, f, x, p);
    }
    RemoveFolders(fs, ids);
    var rank :| Ranked(fs, rank);
    forall x | x in ids
      ensures fs[x].owner == fs[f].owner
    {
      SubtreeIsOrdinary(fs, rank, f, x);
    }
    BinnedDocumentsPlaced(fs, docs, ids, fs[f].owner, trash, now);
    FileKeys(docs, DocumentsBinned(docs, ids, trash, now));
  }

  lemma FileKeys(docs: DocumentTable, docs': DocumentTable)
    requires SameFiles(docs, docs')
    ensures docs.Keys == docs'.Keys
  {
  }

  datatype Strategy = ToTrash | ToParent | ToInbox | DeleteDocuments | Unknown

  /** `delete_folder` with the strategy `delete_documents`, after the confirmation. */
  method DeleteBinning(db: Session, f: FolderId, owner: OwnerId, now: Time) returns (r: Result<FolderId, Error>)
    requires db.Ok() && f in db.folders && db.folders[f].kind == Normal && db.folders[f].owner == owner
    modifies db`folders, db`nextFolder, db`documents
    ensures db.Ok()
    ensures r.Err? ==> r.error == Integrity && db.folders == old(db.folders) && db.documents == old(db.documents)
    ensures r.Ok? ==> BinOutcome(old(db.folders), old(db.documents), db.folders, db.documents, f, owner, now)
    ensures SameFiles(old(db.documents), db.documents)
    ensures r.Ok? ==> r == Ok(f)
    ensures r.Err? <==> SystemRefused(old(db.folders), owner, Trash)
  {
    hide IsForest, Placed, Subtree, SystemRefused, Grown, SameFiles, DocumentsBinned;
    SameFilesAlways(db.documents);
    ghost var fs := db.folders;
    var trash := GetSystemFolder(db, owner, Trash);
    if trash.Err? {
      return Err(trash.error);
    }
    StillThere(fs, db.folders, owner, f);
    ghost var base := db.folders;
    var ids := DescendantIds(db.folders, f, owner);
    GrownSubtree(fs, base, f, owner);
    BinnedKeepsLibrary(base, db.documents, f, trash.value, now);
    NotBelow(base, f, trash.value);
    TrashNotInSubtree(base, f, trash.value);
    db.documents := DocumentsBinned(db.documents, ids, trash.value, now);
    db.folders := db.folders - ids;
    assert trash.value in OfKind(db.folders, owner, Trash);
    return Ok(f);
  }

  lemma TrashNotInSubtree(fs: FolderTable, f: FolderId, x: FolderId)
    requires !Under(fs, f, x)
    ensures x !in Subtree(fs, f)
  {
  }

  /** New system folders sit above, so the subtree of an ordinary folder stays the same. */
  lemma GrownSubtree(fs: FolderTable, fs': FolderTable, f: FolderId, owner: OwnerId)
    requires IsForest(fs) && IsForest(fs') && Grown(fs, fs', owner) && f in fs && fs[f].kind == Normal
    ensures Subtree(fs', f) == Subtree(fs, f)
    ensures Grown(fs - Subtree(fs, f), fs' - Subtree(fs, f), owner)
  {
    var rank :| Ranked(fs', rank);
    forall x | x in fs' && Under(fs', f, x)
      ensures x in fs && Under(fs, f, x)
    {
      GrownUnder(fs, fs', rank, f, x);
    }
    forall x | x in fs && Under(fs, f, x)
      ensures Under(fs', f, x)
    {
      var path :| Climbs(fs, path, x, f);
      assert Climbs(fs', path, x, f);
    }
    forall g, k | g in OfKind(fs - Subtree(fs, f), owner, k)
      ensures g in OfKind(fs, owner, k)
    {
    }
  }

  lemma {:induction false} GrownUnder(fs: FolderTable, fs': FolderTable, rank: FolderId -> nat, f: FolderId, x: FolderId)
    requires WellFormed(fs) && WellFormed(fs') && Ranked(fs', rank) && Extends(fs, fs') && f in fs && fs[f].kind == Normal
    requires forall y :: y in fs' && y !in fs ==> fs'[y].kind != Normal
    requires Under(fs', f, x)
    ensures x in fs && Under(fs, f, x)
    decreases rank(x)
  {
    SubtreeIsOrdinary(fs', rank, f, x);
    if x == f {
      UnderSelf(fs, f);
    } else {
      UnderHasParent(fs', f, x);
      var p := fs'[x].parent.value;
      assert ParentIs(fs', x, p) && ParentIs(fs, x, p);
      GrownUnder(fs, fs', rank, f, p);
      UnderStep(fs, f, x, p);
    }
  }

  /** Either a child's name is in use at the target, or the children and documents of the folder moved there. */
  ghost predicate HoistOutcome(
    fs: FolderTable, docs: DocumentTable, fs': FolderTable, docs': DocumentTable,
    f: FolderId, target: Option<FolderId>, toInbox: bool, r: Result<FolderId, Error>)
  {
    && f in fs && target.Some?
    && if HoistBlocked(fs, f, target.value, fs[f].owner) then r == Err(Conflict) else
      && r == Ok(f)
      && fs' == Hoisted(fs, Children(fs, f), target.value) - {f}
      && docs' == DocumentsHoisted(docs, f, target.value, toInbox)
  }

  /** The subtree is gone, and every document that was in it lies in the trash folder. */
  ghost predicate BinOutcome(
    fs: FolderTable, docs: DocumentTable, fs': FolderTable, docs': DocumentTable, f: FolderId, owner: OwnerId, now: Time)
  {
    && Grown(fs - Subtree(fs, f), fs', owner)
    && exists trash :: trash in OfKind(fs', owner, Trash) && docs' == DocumentsBinned(docs, Subtree(fs, f), trash, now)
  }

  method DeleteToParent(db: Session, f: FolderId, owner: OwnerId) returns (r: Result<FolderId, Error>)
    requires db.Ok() && FolderRefusal(db.folders, f, owner) == None
    modifies db`folders, db`documents
    ensures db.Ok() && SameFiles(old(db.documents), db.documents)
    ensures r.Err? ==> db.folders == old(db.folders) && db.documents == old(db.documents)
    ensures HoistOutcome(old(db.folders), old(db.documents), db.folders, db.documents, f, old(db.folders)[f].parent, false, r)
  {
    hide Placed, Hoisted, DocumentsHoisted, HoistBlocked, SameFiles, Children;
    SameFilesAlways(db.documents);
    assert RowOk(db.folders, f);
    hide IsForest;
    var ok := DeleteHoisting(db, f, db.folders[f].parent.value, owner, false);
    return if ok then Ok(f) else Err(Conflict);
  }

  method DeleteToInbox(db: Session, f: FolderId, owner: OwnerId) returns (r: Result<FolderId, Error>)
    requires db.Ok() && FolderRefusal(db.folders, f, owner) == None
    modifies db`folders, db`nextFolder, db`documents
    ensures db.Ok() && SameFiles(old(db.documents), db.documents)
    ensures r.Err? ==> db.folders == old(db.folders) && db.documents == old(db.documents)
    ensures InboxOutcome(old(db.folders), old(db.documents), db.folders, db.documents, f, owner, r)
  {
    hide Placed, Hoisted, DocumentsHoisted, HoistBlocked, SameFiles, Children, SystemRefused, IsForest, HoistOutcome, Grown;
    SameFilesAlways(db.documents);
    var saved := db.folders;
    var inbox := GetSystemFolder(db, owner, Inbox);
    if inbox.Err? {
      return Err(inbox.error);
    }
    StillThere(saved, db.folders, owner, f);
    ghost var base, docs := db.folders, db.documents;
    HoistOutcomes(base, docs, f, inbox.value, true);
    var ok := DeleteHoisting(db, f, inbox.value, owner, true);
    if !ok {
      db.folders := saved;
      assert HoistOutcome(base, docs, db.folders, db.documents, f, Some(inbox.value), true, Err(Conflict));
      return Err(Conflict);
    }
    return Ok(f);
  }

  lemma HoistOutcomes(fs: FolderTable, docs: DocumentTable, f: FolderId, target: FolderId, toInbox: bool)
    requires f in fs
    ensures HoistBlocked(fs, f, target, fs[f].owner) ==>
      forall fs', docs' :: HoistOutcome(fs, docs, fs', docs', f, Some(target), toInbox, Err(Conflict))
    ensures !HoistBlocked(fs, f, target, fs[f].owner) ==>
      HoistOutcome(fs, docs, Hoisted(fs, Children(fs, f), target) - {f}, DocumentsHoisted(docs, f, target, toInbox), f, Some(target), toInbox, Ok(f))
  {
  }

  /** The contents move to the inbox, which is made first when it is missing, unless names in the root prevent that. */
  ghost predicate InboxOutcome(
    fs: FolderTable, docs: DocumentTable, fs': FolderTable, docs': DocumentTable, f: FolderId, owner: OwnerId, r: Result<FolderId, Error>)
  {
    if SystemRefused(fs, owner, Inbox) then r == Err(Integrity)
    else exists base, inbox ::
      && Grown(fs, base, owner) && (OfKind(fs, owner, Inbox) != {} ==> base == fs) && inbox in OfKind(base, owner, Inbox)
      && HoistOutcome(base, docs, fs', docs', f, Some(inbox), true, r)
  }

  predicate Emptied(fs: FolderTable, docs: DocumentTable, f: FolderId) {
    Children(fs, f) == {} && DocsIn(docs, f) == {}
  }

  function DocumentsUnlinked(docs: DocumentTable, gone: set<FolderId>): DocumentTable {
    map d | d in docs :: Unlinked(docs[d], gone)
  }

  lemma UnlinkedPlaced(fs: FolderTable, docs: DocumentTable, gone: set<FolderId>)
    requires Placed(fs, docs) && forall d :: d in docs ==> docs[d].folder !in gone
    ensures Placed(fs - gone, DocumentsUnlinked(docs, gone)) && SameFiles(docs, DocumentsUnlinked(docs, gone))
  {
  }

  lemma EmptyFolderGoes(fs: FolderTable, docs: DocumentTable, f: FolderId)
    requires LibraryOk(fs, docs) && Emptied(fs, docs, f)
    ensures LibraryOk(fs - {f}, DocumentsUnlinked(docs, {f})) && SameFiles(docs, DocumentsUnlinked(docs, {f}))
  {
    hide IsForest, DocumentsUnlinked, SameFiles, Placed;
    assert forall x, p :: ParentIs(fs, x, p) && p == f ==> x in Children(fs, f);
    forall d | d in docs
      ensures docs[d].folder != f
    {
      assert docs[d].folder == f ==> d in DocsIn(docs, f);
    }
    RemoveFolders(fs, {f});
    UnlinkedPlaced(fs, docs, {f});
  }

  /** What each strategy of `delete_folder` leaves. */
  ghost predicate DeleteOutcome(
    fs: FolderTable, docs: DocumentTable, fs': FolderTable, docs': DocumentTable,
    f: FolderId, owner: OwnerId, strategy: Strategy, confirmed: bool, now: Time, r: Result<FolderId, Error>)
  {
    if FolderRefusal(fs, f, owner).Some? then r == Err(FolderRefusal(fs, f, owner).value)
    else if strategy == ToTrash then r == Ok(f) && TrashOutcome(fs, docs, fs', docs', f, now)
    else if Emptied(fs, docs, f) then r == Ok(f) && fs' == fs - {f} && docs' == DocumentsUnlinked(docs, {f})
    else match strategy
      case ToParent => HoistOutcome(fs, docs, fs', docs', f, fs[f].parent, false, r)
      case ToInbox => InboxOutcome(fs, docs, fs', docs', f, owner, r)
      case DeleteDocuments =>
        if !confirmed then r == Err(Invalid)
        else if SystemRefused(fs, owner, Trash) then r == Err(Integrity)
        else r == Ok(f) && BinOutcome(fs, docs, fs', docs', f, owner, now)
      case _ => r == Err(Invalid)
  }

  /**
    `delete_folder`. Whatever the strategy, no document row, file reference or owner is lost and every document
    stays in an existing folder of its owner. An empty folder goes at once, without a look at the strategy or the
    confirmation.
   */
  method DeleteFolder(db: Session, f: FolderId, owner: OwnerId, strategy: Strategy, confirmed: bool, now: Time)
    returns (r: Result<FolderId, Error>)
    requires db.Ok()
    modifies db`folders, db`nextFolder, db`documents
    ensures db.Ok()
    ensures r.Err? ==> db.folders == old(db.folders) && db.documents == old(db.documents)
    ensures SameFiles(old(db.documents), db.documents)
    ensures DeleteOutcome(old(db.folders), old(db.documents), db.folders, db.documents, f, owner, strategy, confirmed, now, r)
  {
    hide IsForest, Placed, Subtree, SystemRefused, HoistBlocked, SameFiles, Grown, OfKind, BinOutcome, HoistOutcome, TrashOutcome, InboxOutcome;
    SameFilesAlways(db.documents);
    if f !in db.folders || db.folders[f].owner != owner {
      return Err(NotFound);
    }
    if db.folders[f].kind != Normal {
      return Err(Invalid);
    }
    if strategy == ToTrash {
      r := TrashFolder(db, f, owner, now);
      return;
    }
    if Emptied(db.folders, db.documents, f) {
      EmptyFolderGoes(db.folders, db.documents, f);
      db.documents := DocumentsUnlinked(db.documents, {f});
      db.folders := db.folders - {f};
      return Ok(f);
    }
    match strategy
    case ToParent => r := DeleteToParent(db, f, owner);
    case ToInbox => r := DeleteToInbox(db, f, owner);
    case DeleteDocuments =>
      if !confirmed {
        return Err(Invalid);
      }
      r := DeleteBinning(db, f, owner, now);
    case _ => return Err(Invalid);
  }

  lemma SameFilesAlways(docs: DocumentTable)
    ensures SameFiles(docs, docs)
  {
  }
}
