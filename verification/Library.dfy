/** The state of a library: folder rows, document rows and stored blobs. */
module Library {
  import opened Wrappers
  import opened Forest

  type DocId = nat
  type Bytes = seq<bv8>

  datatype Document = Document(
    owner: OwnerId, folder: FolderId, checksum: string, storageKey: string,
    trashed: bool, trashedAt: Option<Time>, trashedFrom: Option<FolderId>, inbox: bool)

  type DocumentTable = map<DocId, Document>

  datatype Error = NotFound | Invalid | Conflict | Integrity | Duplicate(existing: DocId) | QuotaExceeded | KeyCollision

  /** Every document lies in an existing folder of its owner. */
  ghost predicate Placed(fs: FolderTable, docs: DocumentTable) {
    forall d :: d in docs ==> docs[d].folder in fs && fs[docs[d].folder].owner == docs[d].owner
  }

  ghost predicate LibraryOk(fs: FolderTable, docs: DocumentTable) {
    IsForest(fs) && Placed(fs, docs)
  }

  /** A database session together with the blob store behind it. */
  class Session {
    var folders: FolderTable
    var nextFolder: FolderId
    var documents: DocumentTable
    var nextDocument: DocId
    var blobs: map<string, Bytes>
    const sha256: Bytes -> string

    constructor (sha256: Bytes -> string)
      ensures folders == map[] && documents == map[] && blobs == map[] && this.sha256 == sha256
      ensures Ok()
    {
      folders, nextFolder, documents, nextDocument, blobs := map[], 0, map[], 0, map[];
      this.sha256 := sha256;
      new;
      EmptyForest();
    }

    ghost predicate Ok()
      reads this
    {
      && LibraryOk(folders, documents)
      && (forall f :: f in folders ==> f < nextFolder)
      && (forall d :: d in documents ==> d < nextDocument)
    }
  }

  lemma EmptyForest()
    ensures IsForest(map[])
  {
    assert Ranked(map[], (x: FolderId) => 0);
  }

  lemma PlacedIn(fs: FolderTable, fs': FolderTable, docs: DocumentTable)
    requires Placed(fs, docs)
    requires forall f :: f in fs ==> f in fs' && fs'[f].owner == fs[f].owner
    ensures Placed(fs', docs)
  {
  }
}
