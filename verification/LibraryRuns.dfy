/** Runs of any library operations: the forest, the placement of documents and the blob store hold after all of them. */
module LibraryRuns {
  import opened Wrappers
  import opened Forest
  import opened Library
  import opened Folders
  import opened FolderServices
  import opened BlobStore
  import opened FolderDeletion
  import opened Documents
  import opened Purge

  datatype FolderOp =
    | EnsureSystem(owner: OwnerId)
    | Create(name: string, parent: Option<FolderId>, owner: OwnerId)
    | MakePath(top: FolderId, segments: seq<string>)
    | Move(f: FolderId, target: FolderId, owner: OwnerId)
    | Bin(f: FolderId, owner: OwnerId, now: Time)
    | Recover(f: FolderId, owner: OwnerId)
    | Delete(f: FolderId, owner: OwnerId, strategy: Strategy, confirmed: bool, now: Time)

  datatype DocumentOp =
    | Ingest(owner: OwnerId, upload: Upload, skipDuplicates: bool, maxBytes: nat, withinQuota: bool)
    | BinDocument(d: DocId, owner: OwnerId, now: Time)
    | RecoverDocument(d: DocId, wanted: Option<FolderId>, owner: OwnerId)
    | Relocate(d: DocId, folder: FolderId, owner: OwnerId, preserveInbox: Option<bool>)
    | DeleteForGood(d: DocId, only: Option<OwnerId>, allowInbox: bool)
    | Unqueue(d: DocId, owner: OwnerId)
    | PurgeTrash(cutoff: Time, only: Option<OwnerId>)

  datatype Op = OnFolders(folderOp: FolderOp) | OnDocuments(documentOp: DocumentOp)

  datatype Tables = Tables(folders: FolderTable, documents: DocumentTable, blobs: Blobs)

  function Now(db: Session): Tables
    reads db
  {
    Tables(db.folders, db.documents, db.blobs)
  }

  ghost predicate Sound(t: Tables, sha256: Bytes -> string) {
    LibraryOk(t.folders, t.documents) && StoreOk(t.documents, t.blobs, sha256)
  }

  // ---------------------------------------------------------------- what one operation does

  /** The effect of a folder operation; a refused one changes nothing, and none touches a blob. */
  ghost predicate FolderEffect(t: Tables, op: FolderOp, r: Result<nat, Error>, t': Tables) {
    && t'.blobs == t.blobs && (r.Err? ==> t' == t) && SameFiles(t.documents, t'.documents)
    && match op
      case EnsureSystem(owner) =>
        && t'.documents == t.documents && Grown(t.folders, t'.folders, owner)
        && (r.Err? <==> NameTaken(t.folders, owner, Inbox) || NameTaken(t.folders, owner, Trash))
      case Create(name, parent, owner) =>
        && t'.documents == t.documents
        && (r.Ok? ==> r.value in t'.folders && t'.folders[r.value].name == name && t'.folders[r.value].owner == owner)
        && (r.Ok? ==> r.value !in t.folders && Grown(t.folders, t'.folders - {r.value}, owner))
        && (parent.Some? ==> r.Ok? == CreateRefusal(t.folders, name, parent.value, owner).None?)
      case MakePath(top, segments) =>
        && t'.documents == t.documents && (r.Err? <==> PathRefused(t.folders, top, segments))
        && (r.Ok? ==> Leads(t'.folders, top, segments, r.value) && OnlyRevived(t.folders, t'.folders))
      case Move(f, target, owner) =>
        && t'.documents == t.documents && r == Answer(MoveRefusal(t.folders, f, target, owner), f)
        && (r.Ok? ==> t'.folders == Reparented(t.folders, f, target))
      case Bin(f, owner, now) =>
        && r == Answer(FolderRefusal(t.folders, f, owner), f)
        && (r.Ok? ==> TrashOutcome(t.folders, t.documents, t'.folders, t'.documents, f, now))
      case Recover(f, owner) =>
        && r == Answer(FolderRefusal(t.folders, f, owner), f)
        && (r.Ok? ==> RestoreOutcome(t.folders, t.documents, t'.folders, t'.documents, f))
      case Delete(f, owner, strategy, confirmed, now) =>
        DeleteOutcome(t.folders, t.documents, t'.folders, t'.documents, f, owner, strategy, confirmed, now, r)
  }

  function Answer(refusal: Option<Error>, id: nat): Result<nat, Error> {
    match refusal
    case Some(e) => Err(e)
    case None => Ok(id)
  }

  /** Rows other than `d` are as they were. */
  ghost predicate OnlyDocument(docs: DocumentTable, docs': DocumentTable, d: DocId) {
    d in docs && d in docs' && docs' == docs[d := docs'[d]]
  }

  lemma NoDocument(docs: DocumentTable, d: DocId)
    requires d in docs
    ensures OnlyDocument(docs, docs, d)
  {
    assert docs == docs[d := docs[d]];
  }

  ghost predicate Gone(t: Tables, t': Tables, d: DocId) {
    && d in t.documents && t'.documents == t.documents - {d}
    && t'.blobs == BlobsWithout(t.documents, t.blobs, d)
  }

  /** Exactly the expired rows are gone, save the folders with a reason to stay. */
  ghost predicate Purged(t: Tables, cutoff: Time, owner: Option<OwnerId>, t': Tables) {
    var expired, oldDocs := ExpiredFolders(t.folders, cutoff, owner), ExpiredDocuments(t.documents, cutoff, owner);
    && t'.documents.Keys == t.documents.Keys - oldDocs
    && (forall f :: f in t'.folders ==> f in t.folders && t'.folders[f] == t.folders[f])
    && (forall f :: f in t.folders && f !in expired ==> f in t'.folders)
    && (forall f :: f in expired ==> (f in t'.folders <==> KeptAlive(t.folders, t.documents - oldDocs, expired, f)))
  }

  /** The effect of a document operation; a refused one changes no table. */
  ghost predicate DocumentEffect(t: Tables, sha256: Bytes -> string, op: DocumentOp, r: Result<nat, Error>, t': Tables) {
    && (r.Err? ==> t'.folders == t.folders && t'.documents == t.documents)
    && match op
      case Ingest(owner, upload, skip, maxBytes, withinQuota) =>
        && (r.Err? <==> IngestRefused(t.folders, t.documents, sha256, owner, upload, skip, maxBytes, withinQuota))
        && (r.Ok? ==> WithChecksum(t'.documents, owner, sha256(upload.data)) == {r.value})
      case BinDocument(d, owner, now) =>
        && t'.blobs == t.blobs
        && (r.Ok? ==> Grown(t.folders, t'.folders, owner) && OnlyDocument(t.documents, t'.documents, d) && t'.documents[d].trashed)
      case RecoverDocument(d, wanted, owner) =>
        && t'.blobs == t.blobs
        && (r.Ok? ==> Grown(t.folders, t'.folders, owner) && OnlyDocument(t.documents, t'.documents, d) && !t'.documents[d].trashed)
      case Relocate(d, folder, owner, preserve) =>
        && t'.blobs == t.blobs && t'.folders == t.folders
        && (r.Ok? ==> OnlyDocument(t.documents, t'.documents, d) && t'.documents[d].folder == folder && !t'.documents[d].trashed)
      case DeleteForGood(d, only, allowInbox) =>
        && r == Answer(DeleteRefusal(t.documents, d, only, allowInbox), d)
        && t'.folders == t.folders && if r.Ok? then Gone(t, t', d) else t' == t
      case Unqueue(d, owner) =>
        && (r.Ok? <==> d in t.documents && t.documents[d].owner == owner && t.documents[d].inbox && !t.documents[d].trashed)
        && t'.folders == t.folders && if r.Ok? then Gone(t, t', d) else t' == t
      case PurgeTrash(cutoff, only) => r.Ok? && Purged(t, cutoff, only, t')
  }

  ghost predicate Effect(t: Tables, sha256: Bytes -> string, op: Op, r: Result<nat, Error>, t': Tables) {
    match op
    case OnFolders(folderOp) => FolderEffect(t, folderOp, r, t')
    case OnDocuments(documentOp) => DocumentEffect(t, sha256, documentOp, r, t')
  }

  /** The upload would first purge the last reference to a blob. */
  predicate Risky(docs: DocumentTable, sha256: Bytes -> string, op: Op) {
    && op.OnDocuments? && op.documentOp.Ingest?
    && PurgesLastReference(docs, sha256, op.documentOp.owner, op.documentOp.upload, op.documentOp.maxBytes)
  }

  /** A risky upload that is refused after the purge: the tables are rolled back and the blob is not. */
  ghost predicate LosesBlob(t: Tables, sha256: Bytes -> string, op: Op) {
    && Risky(t.documents, sha256, op)
    && var i := op.documentOp;
      IngestRefused(t.folders, t.documents, sha256, i.owner, i.upload, i.skipDuplicates, i.maxBytes, i.withinQuota)
  }

  method PerformOnFolders(db: Session, op: FolderOp) returns (r: Result<nat, Error>)
    requires Consistent(db)
    modifies db`folders, db`nextFolder, db`documents
    ensures Consistent(db)
    ensures FolderEffect(old(Now(db)), op, r, Now(db))
  {
    hide IsForest, Placed, StoreOk, Grown, NameTaken, CreateRefusal, PathRefused, Leads, OnlyRevived, MoveRefusal, FolderRefusal;
    hide TrashOutcome, RestoreOutcome, DeleteOutcome, SameFiles, Reparented, Subtree;
    ghost var t := Now(db);
    SameFilesAlways(db.documents);
    match op {
      case EnsureSystem(owner) =>
        Unchanged(db.folders, owner);
        var all := EnsureSystemFolders(db, owner);
        r := if all.Ok? then Ok(all.value[Root]) else Err(all.error);
      case Create(name, parent, owner) => r := CreateFolder(db, name, parent, owner);
      case MakePath(top, segments) => r := EnsurePath(db, top, segments);
      case Move(f, target, owner) => r := MoveFolder(db, f, target, owner);
      case Bin(f, owner, now) => r := TrashFolder(db, f, owner, now);
      case Recover(f, owner) => r := RestoreFolder(db, f, owner);
      case Delete(f, owner, strategy, confirmed, now) => r := DeleteFolder(db, f, owner, strategy, confirmed, now);
    }
    SameFilesKeepStore(t.documents, db.documents, db.blobs, db.sha256);
  }

  /** Trashing, restoring and moving one document. */
  method PerformPlacement(db: Session, op: DocumentOp) returns (r: Result<nat, Error>)
    requires Consistent(db) && (op.BinDocument? || op.RecoverDocument? || op.Relocate?)
    modifies db`folders, db`nextFolder, db`documents
    ensures Consistent(db)
    ensures DocumentEffect(old(Now(db)), db.sha256, op, r, Now(db))
  {
    hide IsForest, Placed, StoreOk, Grown, OfKind, SystemRefused, RestoreTarget, LibraryOk;
    var d := op.d;
    if d in db.documents {
      NoDocument(db.documents, d);
    }
    match op {
      case BinDocument(_, owner, now) => r := TrashDocument(db, d, owner, now);
      case RecoverDocument(_, wanted, owner) => r := RestoreDocument(db, d, wanted, owner);
      case Relocate(_, folder, owner, preserve) => r := MoveDocument(db, d, folder, owner, preserve);
    }
  }

  method PerformIngest(db: Session, op: DocumentOp) returns (r: Result<nat, Error>)
    requires Consistent(db) && op.Ingest?
    modifies db`folders, db`nextFolder, db`documents, db`nextDocument, db`blobs
    ensures db.Ok()
    ensures Consistent(db) <==> !LosesBlob(old(Now(db)), db.sha256, OnDocuments(op))
    ensures DocumentEffect(old(Now(db)), db.sha256, op, r, Now(db))
  {
    hide LibraryOk, StoreOk, IngestRefused, PurgesLastReference, Stored, Landed, WithChecksum, Acceptable;
    var done := IngestBytes(db, op.owner, op.upload, op.skipDuplicates, op.maxBytes, op.withinQuota);
    r := if done.Ok? then Ok(done.value.id) else Err(done.error);
  }

  method PerformPurge(db: Session, cutoff: Time, only: Option<OwnerId>) returns (r: Result<nat, Error>)
    requires Consistent(db)
    modifies db`folders, db`documents, db`blobs
    ensures Consistent(db)
    ensures r.Ok? && Purged(old(Now(db)), cutoff, only, Now(db))
  {
    hide LibraryOk, StoreOk, KeptAlive, ExpiredFolders, ExpiredDocuments;
    var documents, folders := PurgeExpiredTrash(db, cutoff, only);
    r := Ok(documents + folders);
  }

  method PerformOnDocuments(db: Session, op: DocumentOp) returns (r: Result<nat, Error>)
    requires Consistent(db)
    modifies db`folders, db`nextFolder, db`documents, db`nextDocument, db`blobs
    ensures db.Ok()
    ensures Consistent(db) <==> !LosesBlob(old(Now(db)), db.sha256, OnDocuments(op))
    ensures DocumentEffect(old(Now(db)), db.sha256, op, r, Now(db))
  {
    hide LibraryOk, StoreOk, Grown, IngestRefused, PurgesLastReference, Purged, BlobsWithout, OnlyDocument, WithChecksum;
    match op {
      case Ingest(_, _, _, _, _) => r := PerformIngest(db, op);
      case BinDocument(_, _, _) => r := PerformPlacement(db, op);
      case RecoverDocument(_, _, _) => r := PerformPlacement(db, op);
      case Relocate(_, _, _, _) => r := PerformPlacement(db, op);
      case DeleteForGood(d, only, allowInbox) => r := PermanentlyDelete(db, d, only, allowInbox);
      case Unqueue(d, owner) => r := RemoveFromQueue(db, d, owner);
      case PurgeTrash(cutoff, only) => r := PerformPurge(db, cutoff, only);
    }
  }

  // ---------------------------------------------------------------- runs

  /** Each operation has its effect on the state before it, and the state before it is sound. */
  ghost predicate IsRun(states: seq<Tables>, sha256: Bytes -> string, ops: seq<Op>, results: seq<Result<nat, Error>>) {
    && |states| == |results| + 1 && |results| <= |ops|
    && forall i :: 0 <= i < |results| ==>
      Sound(states[i], sha256) && Effect(states[i], sha256, ops[i], results[i], states[i + 1])
  }

  ghost predicate NothingLost(states: seq<Tables>, sha256: Bytes -> string, ops: seq<Op>, n: nat)
    requires n <= |states| && n <= |ops|
  {
    forall i :: 0 <= i < n ==> !LosesBlob(states[i], sha256, ops[i])
  }

  method Perform(db: Session, op: Op) returns (r: Result<nat, Error>)
    requires Consistent(db)
    modifies db`folders, db`nextFolder, db`documents, db`nextDocument, db`blobs
    ensures db.Ok()
    ensures Consistent(db) <==> !LosesBlob(old(Now(db)), db.sha256, op)
    ensures LosesBlob(old(Now(db)), db.sha256, op) <==> r.Err? && Risky(old(db.documents), db.sha256, op)
    ensures Effect(old(Now(db)), db.sha256, op, r, Now(db))
  {
    hide IsForest, Placed, StoreOk, FolderEffect, IngestRefused, PurgesLastReference;
    match op {
      case OnFolders(folderOp) => r := PerformOnFolders(db, folderOp);
      case OnDocuments(documentOp) => r := PerformOnDocuments(db, documentOp);
    }
  }

  /**
    Any operations in any order keep the library consistent, up to the first upload that loses a blob; there the run
    stops. The library is consistent at the end exactly when there was no such upload, and then every operation was
    carried out.
   */
  method RunAll(db: Session, ops: seq<Op>) returns (results: seq<Result<nat, Error>>, ghost states: seq<Tables>)
    requires Consistent(db)
    modifies db`folders, db`nextFolder, db`documents, db`nextDocument, db`blobs
    ensures db.Ok()
    ensures IsRun(states, db.sha256, ops, results) && states[0] == old(Now(db)) && states[|results|] == Now(db)
    ensures Consistent(db) <==> NothingLost(states, db.sha256, ops, |results|)
    ensures Consistent(db) ==> |results| == |ops|
  {
    hide Effect, LosesBlob, Risky, LibraryOk, StoreOk;
    results, states := [], [Now(db)];
    while |results| < |ops|
      invariant Consistent(db)
      invariant IsRun(states, db.sha256, ops, results) && states[0] == old(Now(db)) && states[|results|] == Now(db)
      invariant NothingLost(states, db.sha256, ops, |results|)
    {
      var op := ops[|results|];
      var risky := Risky(db.documents, db.sha256, op);
      var r := Perform(db, op);
      results, states := results + [r], states + [Now(db)];
      if risky && r.Err? {
        return;
      }
    }
  }
}
