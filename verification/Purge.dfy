/** Purging expired trash: documents first, then folders leaf by leaf until a pass deletes nothing. */
module Purge {
  import opened Wrappers
  import opened Sequences
  import opened Forest
  import opened Library
  import opened Folders
  import opened BlobStore
  import opened FolderDeletion
  import opened Documents

  function ExpiredFolders(fs: FolderTable, cutoff: Time, owner: Option<OwnerId>): set<FolderId> {
    set f | f in fs && fs[f].trashed && fs[f].kind == Normal && fs[f].trashedAt.Some? && fs[f].trashedAt.value < cutoff
      && (owner.None? || fs[f].owner == owner.value)
  }

  function ExpiredDocuments(docs: DocumentTable, cutoff: Time, owner: Option<OwnerId>): set<DocId> {
    set d | d in docs && docs[d].trashed && docs[d].trashedAt.Some? && docs[d].trashedAt.value < cutoff
      && (owner.None? || docs[d].owner == owner.value)
  }

  // ---------------------------------------------------------------- what should go

  /** Nothing in the folder's subtree speaks against deleting it: all of it is expired and holds no document. */
  ghost predicate Clear(fs: FolderTable, docs: DocumentTable, expired: set<FolderId>, f: FolderId) {
    forall g :: g in Subtree(fs, f) ==> g in expired && DocsIn(docs, g) == {}
  }

  ghost function Purgeable(fs: FolderTable, docs: DocumentTable, expired: set<FolderId>): set<FolderId> {
    set f | f in expired && Clear(fs, docs, expired, f)
  }

  /** Deleted so far: expired folders without documents, each after all its children. */
  ghost predicate LeafFirst(fs: FolderTable, docs: DocumentTable, expired: set<FolderId>, gone: set<FolderId>) {
    && gone <= expired
    && forall f :: f in gone ==> DocsIn(docs, f) == {} && Children(fs, f) <= gone
  }

  lemma {:induction false} UnderTwice(fs: FolderTable, rank: FolderId -> nat, a: FolderId, b: FolderId, x: FolderId)
    requires Ranked(fs, rank) && Under(fs, a, b) && Under(fs, b, x)
    ensures Under(fs, a, x)
    decreases rank(x)
  {
    if x != b {
      UnderHasParent(fs, b, x);
      var p := fs[x].parent.value;
      assert ParentIs(fs, x, p);
      UnderTwice(fs, rank, a, b, p);
      UnderStep(fs, a, x, p);
    }
  }

  /** Leaf-first deletion never takes a folder that has a reason to stay. */
  lemma LeafFirstIsSafe(fs: FolderTable, docs: DocumentTable, expired: set<FolderId>, gone: set<FolderId>)
    requires IsForest(fs) && LeafFirst(fs, docs, expired, gone)
    ensures gone <= Purgeable(fs, docs, expired)
  {
    hide Under;
    var rank :| Ranked(fs, rank);
    assert forall y, p :: ParentIs(fs, y, p) && p in gone ==> y in Children(fs, p) && y in gone;
    forall f, g | f in gone && g in Subtree(fs, f)
      ensures g in gone
    {
      ClosedDown(fs, rank, f, gone, g);
    }
  }

  lemma {:induction false} Deepest(s: set<FolderId>, rank: FolderId -> nat) returns (m: FolderId)
    requires s != {}
    ensures m in s && forall x :: x in s ==> rank(x) <= rank(m)
    decreases |s|
  {
    m :| m in s;
    var rest := s - {m};
    if rest != {} {
      var r := Deepest(rest, rank);
      if rank(m) < rank(r) {
        m := r;
      }
    }
  }

  /** Below a folder that could still go lies another one. */
  lemma DeeperStill(
    fs: FolderTable, docs: DocumentTable, expired: set<FolderId>, gone: set<FolderId>, rank: FolderId -> nat, f: FolderId)
    returns (c: FolderId)
    requires Ranked(fs, rank) && f in fs && f in Purgeable(fs, docs, expired) && Children(fs, f) - gone != {}
    ensures c in Purgeable(fs, docs, expired) - gone && rank(f) < rank(c)
  {
    hide Under;
    UnderSelf(fs, f);
    c :| c in Children(fs, f) - gone;
    assert ParentIs(fs, c, f);
    UnderStep(fs, f, c, f);
    forall g | g in Subtree(fs, c)
      ensures g in Subtree(fs, f)
    {
      UnderTwice(fs, rank, f, c, g);
    }
    assert c in Subtree(fs, f);
  }

  /** When every expired folder left has a child or a document, whatever could go is gone. */
  lemma StuckIsComplete(fs: FolderTable, docs: DocumentTable, expired: set<FolderId>, gone: set<FolderId>)
    requires IsForest(fs) && expired <= fs.Keys
    requires forall f :: f in expired - gone ==> Children(fs, f) - gone != {} || DocsIn(docs, f) != {}
    ensures Purgeable(fs, docs, expired) <= gone
  {
    var rank :| Ranked(fs, rank);
    var open := Purgeable(fs, docs, expired) - gone;
    if open != {} {
      var f := Deepest(open, rank);
      UnderSelf(fs, f);
      assert f in Subtree(fs, f);
      var c := DeeperStill(fs, docs, expired, gone, rank, f);
    }
    assert Purgeable(fs, docs, expired) <= gone + open;
  }

  // ---------------------------------------------------------------- the loop over folders

  lemma NextElement(s: seq<nat>, i: nat)
    requires Distinct(s) && i < |s|
    ensures Elements(s[i..]) == {s[i]} + Elements(s[i + 1..]) && s[i] !in Elements(s[i + 1..])
    ensures Elements(s[..i + 1]) == Elements(s[..i]) + {s[i]} && s[i] !in Elements(s[..i])
    ensures s[..i + 1] == s[..i] + [s[i]]
  {
    assert s[i..] == [s[i]] + s[i + 1..];
    assert s[..i + 1] == s[..i] + [s[i]];
  }

  lemma AddElement(s: seq<nat>, x: nat)
    requires Distinct(s) && x !in Elements(s)
    ensures Distinct(s + [x]) && Elements(s + [x]) == Elements(s) + {x}
    ensures forall y :: y in s + [x] <==> y in s || y == x
  {
  }

  /** The rows of a query, in whatever order they come. */
  method InSomeOrder(rows: set<nat>) returns (s: seq<nat>)
    ensures Elements(s) == rows && Distinct(s)
  {
    s := [];
    var left := rows;
    while left != {}
      invariant Elements(s) + left == rows && Elements(s) !! left && Distinct(s)
    {
      var x :| x in left;
      assert Elements(s + [x]) == Elements(s) + {x};
      s, left := s + [x], left - {x};
    }
  }

  /** The tables have lost leaf-first deleted folders, and documents the memory of those, and nothing else. */
  ghost predicate Purging(fs0: FolderTable, docs0: DocumentTable, fs: FolderTable, docs: DocumentTable, expired: set<FolderId>) {
    var gone := fs0.Keys - fs.Keys;
    fs == fs0 - gone && docs == DocumentsUnlinked(docs0, gone) && LeafFirst(fs0, docs0, expired, gone)
  }

  lemma PurgingStep(fs0: FolderTable, docs0: DocumentTable, fs: FolderTable, docs: DocumentTable, expired: set<FolderId>, f: FolderId)
    requires Purging(fs0, docs0, fs, docs, expired) && f in expired && f in fs && Emptied(fs, docs, f)
    ensures Purging(fs0, docs0, fs - {f}, DocumentsUnlinked(docs, {f}), expired)
  {
    var gone := fs0.Keys - fs.Keys;
    assert fs0.Keys - (fs - {f}).Keys == gone + {f};
    assert DocumentsUnlinked(docs, {f}) == DocumentsUnlinked(docs0, gone + {f});
    assert DocsIn(docs0, f) == {} by {
      forall d | d in DocsIn(docs0, f)
        ensures d in DocsIn(docs, f)
      {
      }
    }
    forall c | c in Children(fs0, f)
      ensures c in gone
    {
      assert c !in gone ==> c in Children(fs, f);
    }
  }

  /** One pass over the folders that are left: delete what is empty by now, keep the rest for the next pass. */
  method PurgePass(db: Session, remaining: seq<FolderId>, ghost fs0: FolderTable, ghost docs0: DocumentTable, ghost expired: set<FolderId>)
    returns (next: seq<FolderId>)
    requires Consistent(db) && Purging(fs0, docs0, db.folders, db.documents, expired)
    requires Distinct(remaining) && Elements(remaining) == expired * db.folders.Keys
    modifies db`folders, db`documents
    ensures Consistent(db) && Purging(fs0, docs0, db.folders, db.documents, expired)
    ensures Distinct(next) && Elements(next) == expired * db.folders.Keys && |next| <= |remaining|
    ensures |next| == |remaining| ==>
      next == remaining && forall f :: f in next ==> !Emptied(db.folders, db.documents, f)
  {
    hide Consistent, Purging, Emptied, DocumentsUnlinked;
    next := [];
    for i := 0 to |remaining|
      invariant Consistent(db) && Purging(fs0, docs0, db.folders, db.documents, expired)
      invariant Distinct(next) && Elements(next) + Elements(remaining[i..]) == expired * db.folders.Keys
      invariant Elements(next) <= Elements(remaining[..i])
      invariant |next| <= i && (|next| == i ==> next == remaining[..i])
      invariant |next| == i ==> forall f :: f in next ==> !Emptied(db.folders, db.documents, f)
    {
      hide Elements, Distinct;
      var f := remaining[i];
      NextElement(remaining, i);
      if !Emptied(db.folders, db.documents, f) {
        AddElement(next, f);
        next := next + [f];
        continue;
      }
      PurgingStep(fs0, docs0, db.folders, db.documents, expired, f);
      DeleteEmpty(db, f);
    }
    assert remaining[..|remaining|] == remaining;
  }

  method DeleteEmpty(db: Session, f: FolderId)
    requires Consistent(db) && Emptied(db.folders, db.documents, f)
    modifies db`folders, db`documents
    ensures Consistent(db)
    ensures db.folders == old(db.folders) - {f} && db.documents == DocumentsUnlinked(old(db.documents), {f})
  {
    hide IsForest, Placed, StoreOk, Emptied, SameFiles;
    EmptyFolderGoes(db.folders, db.documents, f);
    SameFilesKeepStore(db.documents, DocumentsUnlinked(db.documents, {f}), db.blobs, db.sha256);
    db.documents := DocumentsUnlinked(db.documents, {f});
    db.folders := db.folders - {f};
  }

  // ---------------------------------------------------------------- the whole purge

  /** Expired documents go one by one; none of them is refused. */
  method PurgeDocuments(db: Session, cutoff: Time, owner: Option<OwnerId>) returns (deleted: nat)
    requires Consistent(db)
    modifies db`documents, db`blobs
    ensures Consistent(db)
    ensures db.documents == old(db.documents) - ExpiredDocuments(old(db.documents), cutoff, owner)
    ensures deleted == |ExpiredDocuments(old(db.documents), cutoff, owner)|
  {
    hide IsForest, Placed, StoreOk, BlobsWithout;
    ghost var docs := db.documents;
    ghost var expired := ExpiredDocuments(docs, cutoff, owner);
    var rows := InSomeOrder(ExpiredDocuments(db.documents, cutoff, owner));
    DistinctCount(rows);
    deleted := 0;
    assert Elements(rows[..0]) == {};
    for i := 0 to |rows|
      invariant Consistent(db) && deleted == i
      invariant db.documents == docs - Elements(rows[..i])
    {
      hide Consistent, Elements, Distinct;
      NextElement(rows, i);
      InElements(rows, i);
      var r := PermanentlyDelete(db, rows[i], owner, false);
      if r.Ok? {
        deleted := deleted + 1;
      }
    }
    assert rows[..|rows|] == rows;
  }

  lemma InElements(s: seq<nat>, i: nat)
    requires i < |s|
    ensures s[i] in Elements(s)
  {
  }

  /** The passes stop by themselves: the bound on their number never cuts the purge short. */
  method PurgeFolders(db: Session, expired: set<FolderId>) returns (deleted: nat)
    requires Consistent(db) && expired <= db.folders.Keys
    modifies db`folders, db`documents
    ensures Consistent(db)
    ensures var gone := Purgeable(old(db.folders), old(db.documents), expired);
      && db.folders == old(db.folders) - gone && db.documents == DocumentsUnlinked(old(db.documents), gone)
      && deleted == |gone|
  {
    ghost var fs0, docs0 := db.folders, db.documents;
    ghost var gone := Purgeable(fs0, docs0, expired);
    assert IsForest(fs0) && gone <= expired;
    hide Consistent, Purging, Purgeable, DocumentsUnlinked, IsForest;
    PurgingStart(fs0, docs0, expired);
    var remaining := InSomeOrder(expired);
    DistinctCount(remaining);
    var total := |remaining|;
    assert expired * db.folders.Keys == expired;
    deleted := 0;
    for passes := 0 to total + 1
      invariant Consistent(db) && Purging(fs0, docs0, db.folders, db.documents, expired)
      invariant Distinct(remaining) && Elements(remaining) == expired * db.folders.Keys
      invariant deleted + |remaining| == |expired| && |remaining| + passes <= total
    {
      hide Elements, Distinct;
      if remaining == [] {
        PurgeEnds(fs0, docs0, db.folders, db.documents, expired, remaining);
        break;
      }
      var next := PurgePass(db, remaining, fs0, docs0, expired);
      deleted := deleted + |remaining| - |next|;
      if |next| == |remaining| {
        PurgeEnds(fs0, docs0, db.folders, db.documents, expired, remaining);
        break;
      }
      remaining := next;
    }
    PurgedCount(fs0, db.folders, expired, gone, remaining);
  }

  lemma PurgedCount(fs0: FolderTable, fs: FolderTable, expired: set<FolderId>, gone: set<FolderId>, remaining: seq<FolderId>)
    requires gone <= expired <= fs0.Keys && fs == fs0 - gone
    requires Distinct(remaining) && Elements(remaining) == expired * fs.Keys
    ensures |gone| + |remaining| == |expired|
  {
    DistinctCount(remaining);
    assert expired == gone + Elements(remaining);
    assert gone !! Elements(remaining);
  }

  /** A pass without progress, or nothing left to try: the tables are what they should be. */
  lemma PurgeEnds(
    fs0: FolderTable, docs0: DocumentTable, fs: FolderTable, docs: DocumentTable, expired: set<FolderId>, remaining: seq<FolderId>)
    requires IsForest(fs0) && expired <= fs0.Keys && Purging(fs0, docs0, fs, docs, expired)
    requires Elements(remaining) == expired * fs.Keys && forall f :: f in remaining ==> !Emptied(fs, docs, f)
    ensures fs == fs0 - Purgeable(fs0, docs0, expired) && docs == DocumentsUnlinked(docs0, Purgeable(fs0, docs0, expired))
  {
    hide IsForest, Purgeable;
    var gone := fs0.Keys - fs.Keys;
    LeafFirstIsSafe(fs0, docs0, expired, gone);
    forall f | f in expired - gone
      ensures Children(fs0, f) - gone != {} || DocsIn(docs0, f) != {}
    {
      assert f in Elements(remaining);
      if Children(fs, f) != {} {
        var c :| c in Children(fs, f);
        assert c in Children(fs0, f) - gone;
      } else {
        var d :| d in DocsIn(docs, f);
        assert d in DocsIn(docs0, f);
      }
    }
    StuckIsComplete(fs0, docs0, expired, gone);
  }

  lemma PurgingStart(fs0: FolderTable, docs0: DocumentTable, expired: set<FolderId>)
    ensures Purging(fs0, docs0, fs0, docs0, expired)
  {
    assert fs0.Keys - fs0.Keys == {};
    assert DocumentsUnlinked(docs0, {}) == docs0;
  }

  /** Some folder of the subtree is not expired, or still holds a document. */
  ghost predicate KeptAlive(fs: FolderTable, docs: DocumentTable, expired: set<FolderId>, f: FolderId) {
    exists g :: g in Subtree(fs, f) && (g !in expired || DocsIn(docs, g) != {})
  }

  /**
    `purge_expired_trash`: expired documents go first. Then an expired folder survives exactly when its subtree still
    holds a document or a folder that is not expired; other folders and documents stay.
   */
  method PurgeExpiredTrash(db: Session, cutoff: Time, owner: Option<OwnerId>) returns (deletedDocuments: nat, deletedFolders: nat)
    requires Consistent(db)
    modifies db`folders, db`documents, db`blobs
    ensures Consistent(db)
    ensures var oldDocs := ExpiredDocuments(old(db.documents), cutoff, owner);
      && db.documents.Keys == old(db.documents).Keys - oldDocs && deletedDocuments == |oldDocs|
      && forall d :: d in db.documents ==> db.documents[d].(trashedFrom := old(db.documents)[d].trashedFrom) == old(db.documents)[d]
    ensures forall d :: d in old(db.documents) ==>
      var doc := old(db.documents)[d];
      (d !in db.documents <==> doc.trashed && doc.trashedAt.Some? && doc.trashedAt.value < cutoff && (owner.None? || doc.owner == owner.value))
    ensures forall f :: f in old(db.folders) && f !in db.folders ==>
      var folder := old(db.folders)[f];
      folder.kind == Normal && folder.trashed && folder.trashedAt.Some? && folder.trashedAt.value < cutoff && (owner.None? || folder.owner == owner.value)
    ensures var expired := ExpiredFolders(old(db.folders), cutoff, owner);
      && deletedFolders == |old(db.folders).Keys - db.folders.Keys|
      && (forall f :: f in db.folders ==> f in old(db.folders) && db.folders[f] == old(db.folders)[f])
      && (forall f :: f in old(db.folders) && f !in expired ==> f in db.folders)
      && (forall f :: f in expired ==> (f in db.folders <==>
          KeptAlive(old(db.folders), old(db.documents) - ExpiredDocuments(old(db.documents), cutoff, owner), expired, f)))
  {
    hide Consistent, Clear, KeptAlive;
    deletedDocuments := PurgeDocuments(db, cutoff, owner);
    var expired := ExpiredFolders(db.folders, cutoff, owner);
    ghost var fs, docs := db.folders, db.documents;
    deletedFolders := PurgeFolders(db, expired);
    forall f
      ensures KeptAlive(fs, docs, expired, f) <==> !Clear(fs, docs, expired, f)
    {
      AliveOrClear(fs, docs, expired, f);
    }
    assert fs.Keys - db.folders.Keys == Purgeable(fs, docs, expired);
  }

  /**
    A folder trashed at `now`, with documents that were not in the trash before, goes as a whole in a purge whose
    cutoff is later, and stays as a whole in any other: the window of retention starts with the trashing.
   */
  lemma TrashThenPurge(fs: FolderTable, docs: DocumentTable, top: FolderId, now: Time, cutoff: Time)
    requires LibraryOk(fs, docs) && top in fs && fs[top].kind == Normal
    requires forall d :: d in docs && docs[d].folder in Subtree(fs, top) ==> !docs[d].trashed
    ensures var ids, owner := Subtree(fs, top), fs[top].owner;
      var fs', docs' := TrashedFolders(fs, ids, owner, now), TrashedDocuments(docs, ids, owner, now);
      var expired, oldDocs := ExpiredFolders(fs', cutoff, Some(owner)), ExpiredDocuments(docs', cutoff, Some(owner));
      && (forall d :: d in docs && docs[d].folder in ids ==> (d in oldDocs <==> now < cutoff))
      && (forall f :: f in ids ==> (f in Purgeable(fs', docs' - oldDocs, expired) <==> now < cutoff))
  {
    hide Under, Placed, RowOk, Siblings, SameSystem;
    var ids, owner := Subtree(fs, top), fs[top].owner;
    var fs', docs' := TrashedFolders(fs, ids, owner, now), TrashedDocuments(docs, ids, owner, now);
    TrashTakesSubtree(fs, docs, top, now);
    RootsKept(fs, ids, owner, now);
    OwnersInSubtree(fs, docs, top);
    forall f | f in ids
      ensures Subtree(fs', f) <= ids && f in Subtree(fs', f)
    {
      SameParentsSameSubtree(fs, fs', f);
      SubtreeInSubtree(fs, top, f);
    }
    var expired, oldDocs := ExpiredFolders(fs', cutoff, Some(owner)), ExpiredDocuments(docs', cutoff, Some(owner));
    hide Subtree, TrashedFolders, TrashedDocuments;
    assert forall f :: f in ids ==> (f in expired <==> now < cutoff);
    assert forall d :: d in docs && docs[d].folder in ids ==> (d in oldDocs <==> now < cutoff);
    forall f | f in ids && now < cutoff
      ensures Clear(fs', docs' - oldDocs, expired, f)
    {
    }
  }

  lemma OwnersInSubtree(fs: FolderTable, docs: DocumentTable, top: FolderId)
    requires LibraryOk(fs, docs) && top in fs && fs[top].kind == Normal
    ensures forall x :: x in Subtree(fs, top) ==> x in fs && fs[x].kind == Normal && fs[x].owner == fs[top].owner
    ensures forall d :: d in docs && docs[d].folder in Subtree(fs, top) ==> docs[d].owner == fs[top].owner
  {
    hide Under;
    var rank :| Ranked(fs, rank);
    forall x | x in Subtree(fs, top)
      ensures fs[x].kind == Normal && fs[x].owner == fs[top].owner
    {
      SubtreeIsOrdinary(fs, rank, top, x);
    }
  }

  lemma SubtreeInSubtree(fs: FolderTable, top: FolderId, f: FolderId)
    requires IsForest(fs) && f in Subtree(fs, top)
    ensures Subtree(fs, f) <= Subtree(fs, top) && f in Subtree(fs, f)
  {
    hide Under;
    var rank :| Ranked(fs, rank);
    UnderSelf(fs, f);
    forall x | x in Subtree(fs, f)
      ensures Under(fs, top, x)
    {
      UnderTwice(fs, rank, top, f, x);
    }
  }

  lemma AliveOrClear(fs: FolderTable, docs: DocumentTable, expired: set<FolderId>, f: FolderId)
    ensures KeptAlive(fs, docs, expired, f) <==> !Clear(fs, docs, expired, f)
  {
  }
}
