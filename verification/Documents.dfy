/** Ingesting, trashing, restoring and deleting documents over shared, content-addressed blobs. */
module Documents {
  import opened Wrappers
  import opened Forest
  import opened Library
  import opened Folders
  import opened FolderServices
  import opened BlobStore

  /** The whole library is consistent: forest, placement of documents, and blobs. */
  ghost predicate Consistent(db: Session)
    reads db
  {
    db.Ok() && StoreOk(db.documents, db.blobs, db.sha256)
  }

  // ---------------------------------------------------------------- deleting

  /** Why a document may not be deleted for good. */
  function DeleteRefusal(docs: DocumentTable, d: DocId, owner: Option<OwnerId>, allowInbox: bool): Option<Error> {
    if d !in docs || (owner.Some? && docs[d].owner != owner.value) then Some(NotFound)
    else if !docs[d].trashed && !(allowInbox && docs[d].inbox) then Some(Invalid)
    else None
  }

  /** `permanently_delete`: the row goes, and its blob with it when no other row of any owner refers to it. */
  method PermanentlyDelete(db: Session, d: DocId, owner: Option<OwnerId>, allowInbox: bool) returns (r: Result<DocId, Error>)
    requires Consistent(db)
    modifies db`documents, db`blobs
    ensures Consistent(db)
    ensures match DeleteRefusal(old(db.documents), d, owner, allowInbox)
      case Some(e) => r == Err(e) && db.documents == old(db.documents) && db.blobs == old(db.blobs)
      case None =>
        && r == Ok(d) && db.documents == old(db.documents) - {d}
        && db.blobs == BlobsWithout(old(db.documents), old(db.blobs), d)
    ensures r.Ok? <==>
      && d in old(db.documents) && (owner.None? || old(db.documents)[d].owner == owner.value)
      && (old(db.documents)[d].trashed || (allowInbox && old(db.documents)[d].inbox))
    ensures r.Ok? ==> forall key :: key in old(db.blobs) ==> (key in db.blobs <==> ReferredByOther(old(db.documents), d, key))
  {
    hide IsForest, StoreOk;
    if d !in db.documents || (owner.Some? && db.documents[d].owner != owner.value) {
      return Err(NotFound);
    }
    if !db.documents[d].trashed && !(allowInbox && db.documents[d].inbox) {
      return Err(Invalid);
    }
    var key := db.documents[d].storageKey;
    var others := Referrers(db.documents, key) - {d};
    DeleteKeepsStore(db.documents, db.blobs, db.sha256, d);
    OnlyReferrer(db.documents, d);
    BlobsLeft(db.documents, db.blobs, db.sha256, d);
    db.documents := db.documents - {d};
    if others == {} {
      db.blobs := db.blobs - {key};
    }
    return Ok(d);
  }

  ghost predicate ReferredByOther(docs: DocumentTable, d: DocId, key: string) {
    exists e :: e in docs && e != d && docs[e].storageKey == key
  }

  /** The blobs left are those that some other document refers to. */
  lemma BlobsLeft(docs: DocumentTable, blobs: Blobs, sha256: Bytes -> string, d: DocId)
    requires StoreOk(docs, blobs, sha256) && d in docs
    ensures forall key :: key in blobs ==> (key in BlobsWithout(docs, blobs, d) <==> ReferredByOther(docs, d, key))
  {
    forall key | key in blobs
      ensures key in BlobsWithout(docs, blobs, d) <==> ReferredByOther(docs, d, key)
    {
      var all := Referrers(docs, key);
      if key == docs[d].storageKey {
        OnlyReferrer(docs, d);
        assert d in all;
        if all != {d} {
          var e :| e in all - {d};
          assert ReferredByOther(docs, d, key);
        } else {
          assert forall e :: e in docs && docs[e].storageKey == key ==> e in all;
        }
      } else {
        var e :| e in all;
        assert ReferredByOther(docs, d, key);
      }
    }
  }

  lemma OnlyReferrer(docs: DocumentTable, d: DocId)
    requires d in docs
    ensures Referrers(docs, docs[d].storageKey) - {d} == {} <==> Referrers(docs, docs[d].storageKey) == {d}
  {
    var all := Referrers(docs, docs[d].storageKey);
    assert d in all;
    assert all == (all - {d}) + {d};
  }

  /** `remove_from_queue`: an active inbox document goes for good, without passing the trash. */
  method RemoveFromQueue(db: Session, d: DocId, owner: OwnerId) returns (r: Result<DocId, Error>)
    requires Consistent(db)
    modifies db`documents, db`blobs
    ensures Consistent(db)
    ensures d !in old(db.documents) || old(db.documents)[d].owner != owner ==> r == Err(NotFound)
    ensures r.Err? ==> db.documents == old(db.documents) && db.blobs == old(db.blobs)
    ensures d in old(db.documents) && old(db.documents)[d].owner == owner ==>
      r == if old(db.documents)[d].inbox && !old(db.documents)[d].trashed then Ok(d) else Err(Invalid)
    ensures r.Ok? ==> db.documents == old(db.documents) - {d} && db.blobs == BlobsWithout(old(db.documents), old(db.blobs), d)
  {
    hide IsForest, StoreOk;
    if d !in db.documents || db.documents[d].owner != owner {
      return Err(NotFound);
    }
    if !db.documents[d].inbox || db.documents[d].trashed {
      return Err(Invalid);
    }
    r := PermanentlyDelete(db, d, Some(owner), true);
  }

  // ---------------------------------------------------------------- trash and restore

  lemma RowKeepsConsistent(
    fs: FolderTable, docs: DocumentTable, blobs: Blobs, sha256: Bytes -> string, d: DocId, doc: Document)
    requires LibraryOk(fs, docs) && StoreOk(docs, blobs, sha256) && d in docs
    requires doc.owner == docs[d].owner && doc.checksum == docs[d].checksum && doc.storageKey == docs[d].storageKey
    requires doc.folder in fs && fs[doc.folder].owner == doc.owner
    ensures LibraryOk(fs, docs[d := doc]) && StoreOk(docs[d := doc], blobs, sha256)
  {
    hide IsForest, StoreOk;
    SameFilesKeepStore(docs, docs[d := doc], blobs, sha256);
  }

  /** `trash_document`: into the owner's trash folder, remembering where it was; a trashed one is left alone. */
  method TrashDocument(db: Session, d: DocId, owner: OwnerId, now: Time) returns (r: Result<DocId, Error>)
    requires Consistent(db)
    modifies db`folders, db`nextFolder, db`documents
    ensures Consistent(db)
    ensures r.Err? ==> db.folders == old(db.folders) && db.documents == old(db.documents)
    ensures r == Err(NotFound) <==> d !in old(db.documents) || old(db.documents)[d].owner != owner
    ensures r.Err? ==> r.error == NotFound || (r.error == Integrity && SystemRefused(old(db.folders), owner, Trash))
    ensures r.Ok? ==> Grown(old(db.folders), db.folders, owner)
    ensures r.Ok? && old(db.documents)[d].trashed ==> db.folders == old(db.folders) && db.documents == old(db.documents)
    ensures r.Ok? && !old(db.documents)[d].trashed ==>
      exists trash :: trash in OfKind(db.folders, owner, Trash) && db.documents == old(db.documents)[d :=
        old(db.documents)[d].(folder := trash, trashed := true, trashedAt := Some(now), trashedFrom := Some(old(db.documents)[d].folder), inbox := false)]
  {
    hide IsForest, Placed, StoreOk, Grown, SystemRefused;
    if d !in db.documents || db.documents[d].owner != owner {
      return Err(NotFound);
    }
    if db.documents[d].trashed {
      Unchanged(db.folders, owner);
      return Ok(d);
    }
    ghost var fs, docs := db.folders, db.documents;
    var trash := GetSystemFolder(db, owner, Trash);
    if trash.Err? {
      return Err(trash.error);
    }
    var doc := db.documents[d].(
      folder := trash.value, trashed := true, trashedAt := Some(now), trashedFrom := Some(db.documents[d].folder), inbox := false);
    RowKeepsConsistent(db.folders, docs, db.blobs, db.sha256, d, doc);
    db.documents := db.documents[d := doc];
    return Ok(d);
  }

  /** An active folder of the owner other than the trash. */
  predicate InUse(fs: FolderTable, f: FolderId, owner: OwnerId) {
    f in fs && fs[f].owner == owner && !fs[f].trashed && fs[f].kind != Trash
  }

  /** The remembered origin is usable: there, the owner's, not trashed and not the trash folder. */
  predicate UsableOrigin(fs: FolderTable, origin: Option<FolderId>, owner: OwnerId) {
    origin.Some? && InUse(fs, origin.value, owner)
  }

  /** Where a restored document goes when that is not the inbox. */
  function RestoreTarget(fs: FolderTable, doc: Document, wanted: Option<FolderId>): Option<FolderId> {
    var target := if wanted.Some? then wanted else if UsableOrigin(fs, doc.trashedFrom, doc.owner) then doc.trashedFrom else None;
    if UsableOrigin(fs, target, doc.owner) then target else None
  }

  /**
    `restore_document`: back to the wanted folder, or to its origin, or to the inbox when that folder cannot take it.
    An explicit folder of someone else, or none at all, is an error.
   */
  method RestoreDocument(db: Session, d: DocId, wanted: Option<FolderId>, owner: OwnerId) returns (r: Result<DocId, Error>)
    requires Consistent(db)
    modifies db`folders, db`nextFolder, db`documents
    ensures Consistent(db)
    ensures r.Err? ==> db.folders == old(db.folders) && db.documents == old(db.documents)
    ensures r == Err(NotFound) <==> (
      || d !in old(db.documents) || old(db.documents)[d].owner != owner
      || (old(db.documents)[d].trashed && wanted.Some?
          && (wanted.value !in old(db.folders) || old(db.folders)[wanted.value].owner != owner)))
    ensures r.Err? ==> r.error == NotFound || (r.error == Integrity && SystemRefused(old(db.folders), owner, Inbox))
    ensures r.Ok? ==> Grown(old(db.folders), db.folders, owner)
    ensures r.Ok? && !old(db.documents)[d].trashed ==> db.documents == old(db.documents)
    ensures r.Ok? && old(db.documents)[d].trashed ==>
      && d in db.documents && db.documents[d].folder in db.folders && !db.documents[d].trashed
      && var landed := db.folders[db.documents[d].folder];
        landed.owner == owner && (landed.kind == Inbox || (landed.kind != Trash && !landed.trashed))
    ensures r.Ok? && old(db.documents)[d].trashed ==>
      var target := if wanted.Some? then wanted else old(db.documents)[d].trashedFrom;
      forall f :: target == Some(f) && InUse(old(db.folders), f, owner) ==> db.documents[d].folder == f
    ensures r.Ok? && old(db.documents)[d].trashed ==>
      exists inbox :: inbox in OfKind(db.folders, owner, Inbox) &&
        var doc := old(db.documents)[d];
        var target := match RestoreTarget(old(db.folders), doc, wanted) case Some(f) => f case None => inbox;
        db.documents == old(db.documents)[d :=
          doc.(folder := target, trashed := false, trashedAt := None, trashedFrom := None, inbox := target == inbox)]
  {
    hide IsForest, Placed, StoreOk, Grown, SystemRefused;
    if d !in db.documents || db.documents[d].owner != owner {
      return Err(NotFound);
    }
    if !db.documents[d].trashed {
      Unchanged(db.folders, owner);
      return Ok(d);
    }
    ghost var fs, docs := db.folders, db.documents;
    var doc := db.documents[d];
    var target := wanted;
    if target.None? && UsableOrigin(db.folders, doc.trashedFrom, owner) {
      target := doc.trashedFrom;
    }
    if target.Some? && (target.value !in db.folders || db.folders[target.value].owner != owner) {
      return Err(NotFound);
    }
    var inbox := GetSystemFolder(db, owner, Inbox);
    if inbox.Err? {
      return Err(inbox.error);
    }
    if target.Some? {
      StillThere(fs, db.folders, owner, target.value);
    }
    if target.None? || db.folders[target.value].trashed || db.folders[target.value].kind == Trash {
      target := Some(inbox.value);
    }
    doc := doc.(folder := target.value, trashed := false, trashedAt := None, trashedFrom := None, inbox := target.value == inbox.value);
    RowKeepsConsistent(db.folders, docs, db.blobs, db.sha256, d, doc);
    db.documents := db.documents[d := doc];
    return Ok(d);
  }

  /**
    `move_document`: into any folder of the owner but the trash. It takes the document out of the trash as well, and
    out of the inbox queue only when the caller says so and the folder is not the inbox.
   */
  method MoveDocument(db: Session, d: DocId, folder: FolderId, owner: OwnerId, preserveInbox: Option<bool>)
    returns (r: Result<DocId, Error>)
    requires Consistent(db)
    modifies db`documents
    ensures Consistent(db)
    ensures r == Err(NotFound) <==> (
      || d !in old(db.documents) || old(db.documents)[d].owner != owner
      || folder !in db.folders || db.folders[folder].owner != owner)
    ensures r.Err? ==> db.documents == old(db.documents) && (r.error == NotFound || r.error == Invalid)
    ensures r == Err(Invalid) ==> db.folders[folder].kind == Trash
    ensures r.Ok? ==> r.value == d && db.folders[folder].kind != Trash
    ensures r.Ok? ==>
      var doc := old(db.documents)[d];
      var stays := if preserveInbox.Some? then preserveInbox.value else doc.inbox;
      db.documents == old(db.documents)[d :=
        doc.(folder := folder, trashed := false, trashedAt := None, inbox := stays || db.folders[folder].kind == Inbox)]
  {
    hide IsForest, Placed, StoreOk;
    if d !in db.documents || db.documents[d].owner != owner {
      return Err(NotFound);
    }
    if folder !in db.folders || db.folders[folder].owner != owner {
      return Err(NotFound);
    }
    if db.folders[folder].kind == Trash {
      return Err(Invalid);
    }
    var doc := db.documents[d];
    var keep := if preserveInbox.None? then doc.inbox else preserveInbox.value;
    if preserveInbox.None? && doc.inbox {
      keep := true;
    }
    doc := doc.(folder := folder, trashed := false, trashedAt := None, inbox := if keep then true else db.folders[folder].kind == Inbox);
    RowKeepsConsistent(db.folders, db.documents, db.blobs, db.sha256, d, doc);
    db.documents := db.documents[d := doc];
    return Ok(d);
  }

  // ---------------------------------------------------------------- ingesting

  datatype Ingested = Created(id: DocId) | DuplicateOf(id: DocId)

  /** The owner's document with this checksum, active or in the trash. */
  function WithChecksum(docs: DocumentTable, owner: OwnerId, checksum: string): set<DocId> {
    set d | d in docs && docs[d].owner == owner && docs[d].checksum == checksum
  }

  lemma OneWithChecksum(docs: DocumentTable, blobs: Blobs, sha256: Bytes -> string, owner: OwnerId, checksum: string, d: DocId)
    requires StoreOk(docs, blobs, sha256) && d in WithChecksum(docs, owner, checksum)
    ensures WithChecksum(docs, owner, checksum) == {d}
  {
    forall e | e in WithChecksum(docs, owner, checksum)
      ensures e == d
    {
      assert SameContent(docs, d, e);
    }
  }

  /** The step before storing an upload again: a trashed document with the same content is deleted for good. */
  method DropTrashedDuplicate(db: Session, owner: OwnerId, checksum: string)
    requires Consistent(db)
    requires forall d :: d in WithChecksum(db.documents, owner, checksum) ==> db.documents[d].trashed
    modifies db`documents, db`blobs
    ensures Consistent(db)
    ensures db.documents == old(db.documents) - WithChecksum(old(db.documents), owner, checksum)
    ensures WithChecksum(db.documents, owner, checksum) == {}
    ensures StoreOk(old(db.documents), db.blobs, db.sha256) <==> !exists d ::
      d in WithChecksum(old(db.documents), owner, checksum) && Referrers(old(db.documents), old(db.documents)[d].storageKey) == {d}
  {
    hide IsForest, Placed, StoreOk, Referrers;
    if d :| d in WithChecksum(db.documents, owner, checksum) {
      OneWithChecksum(db.documents, db.blobs, db.sha256, owner, checksum, d);
      RolledBackDelete(db.documents, db.blobs, db.sha256, d);
      var gone := PermanentlyDelete(db, d, Some(owner), false);
    }
  }

  /** No folder for the upload: the inbox is missing and cannot be made, or the given folder or path is refused. */
  ghost predicate TargetRefused(fs: FolderTable, owner: OwnerId, folder: Option<FolderId>, segments: seq<string>) {
    if folder.None? then SystemRefused(fs, owner, Inbox)
    else
      || folder.value !in fs || fs[folder.value].owner != owner
      || (segments != [] && PathRefused(fs, folder.value, segments))
  }

  /** Where the new document goes: the inbox, the given folder, or a path created below it. */
  method TargetFolder(db: Session, owner: OwnerId, folder: Option<FolderId>, segments: seq<string>)
    returns (r: Result<(FolderId, bool), Error>)
    requires db.Ok()
    modifies db`folders, db`nextFolder
    ensures db.Ok() && old(db.nextFolder) <= db.nextFolder
    ensures r.Err? ==> db.folders == old(db.folders) && r.error != KeyCollision && !r.error.Duplicate?
    ensures r.Ok? ==> r.value.0 in db.folders && db.folders[r.value.0].owner == owner
    ensures r.Ok? ==> (r.value.1 <==> db.folders[r.value.0].kind == Inbox)
    ensures r.Ok? && folder.None? ==> r.value.1
    ensures r.Ok? && folder.Some? ==> Leads(db.folders, folder.value, segments, r.value.0)
    ensures r.Err? <==> TargetRefused(old(db.folders), owner, folder, segments)
    ensures folder.Some? && (folder.value !in old(db.folders) || old(db.folders)[folder.value].owner != owner) ==> r == Err(NotFound)
  {
    hide IsForest, Placed, Grown, SystemRefused, IsStep, OnlyRevived, PathRefused;
    if folder.None? {
      var inbox := GetSystemFolder(db, owner, Inbox);
      return match inbox case Ok(f) => Ok((f, true)) case Err(e) => Err(e);
    }
    if folder.value !in db.folders || db.folders[folder.value].owner != owner {
      return Err(NotFound);
    }
    if segments == [] {
      return Ok((folder.value, db.folders[folder.value].kind == Inbox));
    }
    ghost var fs := db.folders;
    var leaf := EnsurePath(db, folder.value, segments);
    if leaf.Err? {
      return Err(leaf.error);
    }
    SameOwner(fs, db.folders, folder.value);
    return Ok((leaf.value, db.folders[leaf.value].kind == Inbox));
  }

  lemma SameOwner(fs: FolderTable, fs': FolderTable, f: FolderId)
    requires OnlyRevived(fs, fs') && f in fs
    ensures f in fs' && fs'[f].owner == fs[f].owner
  {
  }

  /** Adding the row and its blob once no document of the owner has that checksum. */
  method AddDocument(db: Session, owner: OwnerId, folder: FolderId, inbox: bool, data: Bytes, extension: string)
    returns (id: DocId)
    requires Consistent(db) && folder in db.folders && db.folders[folder].owner == owner
    requires |db.sha256(data)| == DIGEST_LENGTH && WithChecksum(db.documents, owner, db.sha256(data)) == {}
    modifies db`documents, db`nextDocument, db`blobs
    ensures Consistent(db)
    ensures id == old(db.nextDocument)
    ensures var key := KeyFor(db.sha256(data), extension);
      && db.documents == old(db.documents)[id := Document(owner, folder, db.sha256(data), key, false, None, None, inbox)]
      && db.blobs == Persisted(old(db.blobs), key, data)
  {
    hide IsForest, StoreOk;
    var checksum := db.sha256(data);
    var key := KeyFor(checksum, extension);
    if key in db.blobs {
      NoCollision(db.documents, db.blobs, db.sha256, checksum, extension);
    }
    ghost var docs, blobs := db.documents, db.blobs;
    // `stored` is never an error here: NoCollision
    var stored := PersistOriginal(db, data, checksum, extension);
    id := db.nextDocument;
    var doc := Document(owner, folder, checksum, stored.value, false, None, None, inbox);
    forall d | d in docs && docs[d].owner == owner
      ensures docs[d].checksum != checksum
    {
      assert docs[d].checksum == checksum ==> d in WithChecksum(docs, owner, checksum);
    }
    CreateKeepsStore(docs, blobs, db.sha256, id, doc, data, extension);
    db.documents := db.documents[id := doc];
    db.nextDocument := id + 1;
  }

  /** What an upload is: content, the extension of its type if that type is allowed, and where it is to go. */
  datatype Upload = Upload(data: Bytes, extension: Option<string>, folder: Option<FolderId>, segments: seq<string>)

  predicate Acceptable(upload: Upload, maxBytes: nat) {
    upload.data != [] && |upload.data| <= maxBytes && upload.extension.Some?
  }

  /** The call would first purge a trashed duplicate that is the only document referring to its blob. */
  predicate PurgesLastReference(docs: DocumentTable, sha256: Bytes -> string, owner: OwnerId, upload: Upload, maxBytes: nat) {
    && Acceptable(upload, maxBytes)
    && exists d :: d in WithChecksum(docs, owner, sha256(upload.data)) && docs[d].trashed && Referrers(docs, docs[d].storageKey) == {d}
  }

  ghost predicate IngestRefused(
    fs: FolderTable, docs: DocumentTable, sha256: Bytes -> string, owner: OwnerId, upload: Upload, skipDuplicates: bool,
    maxBytes: nat, withinQuota: bool)
  {
    || !Acceptable(upload, maxBytes)
    || (if exists d :: d in WithChecksum(docs, owner, sha256(upload.data)) && !docs[d].trashed then !skipDuplicates
        else !withinQuota || TargetRefused(fs, owner, upload.folder, upload.segments))
  }

  /** The new document lies where the upload wanted it, in the inbox queue exactly when that is the inbox. */
  ghost predicate Landed(fs: FolderTable, doc: Document, owner: OwnerId, upload: Upload) {
    && doc.owner == owner && !doc.trashed && doc.folder in fs && (doc.inbox <==> fs[doc.folder].kind == Inbox)
    && if upload.folder.None? then doc.inbox else Leads(fs, upload.folder.value, upload.segments, doc.folder)
  }

  /**
    `ingest_bytes`. A success stores the content once and leaves the library consistent. A failure rolls the tables
    back but not the blobs, so it leaves the library consistent exactly when it did not first purge the last
    reference to a blob.
   */
  method IngestBytes(db: Session, owner: OwnerId, upload: Upload, skipDuplicates: bool, maxBytes: nat, withinQuota: bool)
    returns (r: Result<Ingested, Error>)
    requires Consistent(db)
    modifies db`folders, db`nextFolder, db`documents, db`nextDocument, db`blobs
    ensures db.Ok()
    ensures r.Ok? ==> Consistent(db)
    ensures r.Err? ==> db.folders == old(db.folders) && db.documents == old(db.documents)
    ensures r.Err? ==> (Consistent(db) <==> !PurgesLastReference(old(db.documents), db.sha256, owner, upload, maxBytes))
    ensures r.Err? <==> IngestRefused(old(db.folders), old(db.documents), db.sha256, owner, upload, skipDuplicates, maxBytes, withinQuota)
    ensures r.Err? ==> r.error != KeyCollision
    ensures !Acceptable(upload, maxBytes) ==> r == Err(Invalid)
    ensures r.Ok? ==> 0 < |upload.data| <= maxBytes && upload.extension.Some? && (r.value.Created? ==> withinQuota)
    ensures Acceptable(upload, maxBytes) ==> forall d :: d in WithChecksum(old(db.documents), owner, db.sha256(upload.data)) ==>
      if old(db.documents)[d].trashed then r.Ok? ==> r.value.Created? && d !in db.documents
      else r == (if skipDuplicates then Ok(DuplicateOf(d)) else Err(Duplicate(d))) && db.documents == old(db.documents)
    ensures r.Ok? && r.value.DuplicateOf? ==> db.folders == old(db.folders) && db.blobs == old(db.blobs)
    ensures r.Ok? ==> WithChecksum(db.documents, owner, db.sha256(upload.data)) == {r.value.id}
    ensures r.Ok? && r.value.Created? ==>
      && r.value.id !in old(db.documents)
      && |db.sha256(upload.data)| == DIGEST_LENGTH && upload.extension.Some?
      && db.documents[r.value.id].storageKey == KeyFor(db.sha256(upload.data), upload.extension.value)
      && db.documents[r.value.id].checksum == db.sha256(upload.data)
      && Stored(db.documents, db.blobs, db.sha256, r.value.id)
      && Landed(db.folders, db.documents[r.value.id], owner, upload)
      && (forall d :: d in old(db.documents) && d !in WithChecksum(old(db.documents), owner, db.sha256(upload.data)) ==>
          d in db.documents && db.documents[d] == old(db.documents)[d])
  {
    hide IsForest, Placed, StoreOk, Stored, Leads, TargetRefused;
    if !Acceptable(upload, maxBytes) {
      return Err(Invalid);
    }
    var checksum := db.sha256(upload.data);
    DigestLength(db.documents, db.blobs, db.sha256, upload.data);
    if d :| d in WithChecksum(db.documents, owner, checksum) && !db.documents[d].trashed {
      OneWithChecksum(db.documents, db.blobs, db.sha256, owner, checksum, d);
      return if skipDuplicates then Ok(DuplicateOf(d)) else Err(Duplicate(d));
    }
    var savedDocuments := db.documents;
    DropTrashedDuplicate(db, owner, checksum);
    if !withinQuota {
      db.documents := savedDocuments;
      return Err(QuotaExceeded);
    }
    var target := TargetFolder(db, owner, upload.folder, upload.segments);
    if target.Err? {
      db.documents := savedDocuments;
      return Err(target.error);
    }
    var id := AddDocument(db, owner, target.value.0, target.value.1, upload.data, upload.extension.value);
    StoredIn(db.documents, db.blobs, db.sha256, id);
    return Ok(Created(id));
  }
}
