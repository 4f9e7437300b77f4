/** The services that create, move, trash and restore folders. A service that fails leaves the tables as they were:
    its caller rolls back. */
module FolderServices {
  import opened Wrappers
  import opened Forest
  import opened Library
  import opened Folders

  // ---------------------------------------------------------------- system folders

  function SystemName(kind: Kind): string {
    match kind
    case Root => "Documents"
    case Inbox => "Inbox"
    case _ => "Trash"
  }

  /** Every old row is still there, unchanged. */
  ghost predicate Extends(fs: FolderTable, fs': FolderTable) {
    forall f :: f in fs ==> f in fs' && fs'[f] == fs[f]
  }

  /** Nothing but missing system folders of one owner was added. */
  ghost predicate Grown(fs: FolderTable, fs': FolderTable, owner: OwnerId) {
    && Extends(fs, fs')
    && (forall f :: f in fs' && f !in fs ==>
      && fs'[f].owner == owner && fs'[f].kind != Normal && OfKind(fs, owner, fs'[f].kind) == {}
      && fs'[f].name == SystemName(fs'[f].kind) && !fs'[f].trashed && fs'[f].trashedAt == None)
  }

  /** The system folder is missing, and an ordinary folder of the root already bears its name. */
  ghost predicate NameTaken(fs: FolderTable, owner: OwnerId, kind: Kind) {
    && kind != Normal && OfKind(fs, owner, kind) == {}
    && exists root :: root in OfKind(fs, owner, Root) && Named(fs, owner, root, SystemName(kind)) != {}
  }

  lemma OneOfKind(fs: FolderTable, owner: OwnerId, kind: Kind, f: FolderId)
    requires IsForest(fs) && kind != Normal && f in OfKind(fs, owner, kind)
    ensures OfKind(fs, owner, kind) == {f}
  {
    forall g | g in OfKind(fs, owner, kind)
      ensures g == f
    {
      assert SameSystem(fs, f, g);
    }
  }

  lemma SystemNamesDiffer(k: Kind, k': Kind)
    requires k != Normal && k' != Normal && SystemName(k) == SystemName(k')
    ensures k == k'
  {
    assert SystemName(k)[0] == SystemName(k')[0];
  }

  /** While only system folders were added, a name in the way now was in the way before. */
  lemma NameTakenNow(fs: FolderTable, fs': FolderTable, owner: OwnerId, kind: Kind, root: FolderId)
    requires IsForest(fs) && IsForest(fs') && Grown(fs, fs', owner)
    requires (kind == Inbox || kind == Trash) && root in OfKind(fs', owner, Root)
    requires OfKind(fs, owner, kind) == {} ==> OfKind(fs', owner, kind) == {}
    ensures NameTaken(fs, owner, kind) <==>
      OfKind(fs', owner, kind) == {} && Named(fs', owner, root, SystemName(kind)) != {}
  {
    OneOfKind(fs', owner, Root, root);
    forall g | g in OfKind(fs, owner, kind)
      ensures g in OfKind(fs', owner, kind)
    {
    }
    if NameTaken(fs, owner, kind) {
      var r :| r in OfKind(fs, owner, Root) && Named(fs, owner, r, SystemName(kind)) != {};
      var g :| g in Named(fs, owner, r, SystemName(kind));
      assert r in OfKind(fs', owner, Root);
      assert g in Named(fs', owner, root, SystemName(kind));
    }
    if OfKind(fs', owner, kind) == {} && Named(fs', owner, root, SystemName(kind)) != {} {
      var g :| g in Named(fs', owner, root, SystemName(kind));
      assert g in fs by {
        assert g in OfKind(fs', owner, fs'[g].kind);
        if g !in fs {
          SystemNamesDiffer(fs'[g].kind, kind);
        }
      }
      assert RowOk(fs, g);
      assert root in OfKind(fs, owner, Root) && g in Named(fs, owner, root, SystemName(kind));
    }
  }

  function SystemRow(owner: OwnerId, kind: Kind, root: Option<FolderId>): Folder {
    Folder(SystemName(kind), root, owner, kind, false, None)
  }

  lemma SystemFolderAdded(fs: FolderTable, id: FolderId, owner: OwnerId, kind: Kind, root: Option<FolderId>)
    requires IsForest(fs) && id !in fs && kind != Normal && OfKind(fs, owner, kind) == {}
    requires if root.None? then kind == Root else kind != Root && root.value in OfKind(fs, owner, Root)
    requires root.Some? ==> Named(fs, owner, root.value, SystemName(kind)) == {}
    ensures IsForest(fs[id := SystemRow(owner, kind, root)]) && Grown(fs, fs[id := SystemRow(owner, kind, root)], owner)
  {
    hide IsForest;
    assert forall g :: g in fs && fs[g].owner == owner ==> g in OfKind(fs, owner, fs[g].kind);
    if root.Some? {
      assert forall g :: g in fs && fs[g].owner == owner && fs[g].parent == root ==> g in Named(fs, owner, root.value, fs[g].name);
      AddFolder(fs, id, SystemRow(owner, kind, root));
    } else {
      AddRoot(fs, id, SystemRow(owner, kind, root));
    }
  }

  lemma GrownPlaced(fs: FolderTable, fs': FolderTable, owner: OwnerId, docs: DocumentTable)
    requires Grown(fs, fs', owner) && Placed(fs, docs)
    ensures Placed(fs', docs)
  {
    PlacedIn(fs, fs', docs);
  }

  lemma GrownTwice(a: FolderTable, b: FolderTable, c: FolderTable, owner: OwnerId)
    requires Grown(a, b, owner) && Grown(b, c, owner)
    ensures Grown(a, c, owner)
  {
    forall f | f in c && f !in a
      ensures OfKind(a, owner, c[f].kind) == {}
    {
      assert forall g :: g in OfKind(a, owner, c[f].kind) ==> g in OfKind(b, owner, c[f].kind);
    }
  }

  lemma StillThere(fs: FolderTable, fs': FolderTable, owner: OwnerId, f: FolderId)
    requires Grown(fs, fs', owner) && f in fs
    ensures f in fs' && fs'[f] == fs[f]
  {
  }

  lemma GrownKinds(a: FolderTable, b: FolderTable, owner: OwnerId, kind: Kind, f: FolderId)
    requires Grown(a, b, owner) && f in OfKind(a, owner, kind)
    ensures f in OfKind(b, owner, kind)
  {
  }

  /** `ensure_system_folders`, one kind of it; the root is there already unless it is the one asked for. */
  method EnsureSystemFolder(db: Session, owner: OwnerId, kind: Kind, root: Option<FolderId>) returns (r: Result<FolderId, Error>)
    requires db.Ok() && kind != Normal
    requires if root.None? then kind == Root else kind != Root && root.value in OfKind(db.folders, owner, Root)
    modifies db`folders, db`nextFolder
    ensures db.Ok() && old(db.nextFolder) <= db.nextFolder
    ensures r.Ok? ==> r.value in OfKind(db.folders, owner, kind) && Grown(old(db.folders), db.folders, owner)
    ensures forall k :: k != kind && OfKind(old(db.folders), owner, k) == {} ==> OfKind(db.folders, owner, k) == {}
    ensures r.Err? ==> r.error == Integrity && db.folders == old(db.folders)
    ensures r.Err? <==> (
      && OfKind(old(db.folders), owner, kind) == {} && root.Some?
      && Named(old(db.folders), owner, root.value, SystemName(kind)) != {})
  {
    hide IsForest, Named, SystemName, Placed, Grown;
    ghost var fs := db.folders;
    if f :| f in OfKind(db.folders, owner, kind) {
      assert Grown(fs, fs, owner) by { Unchanged(fs, owner); }
      return Ok(f);
    }
    if root.Some? && Named(db.folders, owner, root.value, SystemName(kind)) != {} {
      return Err(Integrity);
    }
    var id := db.nextFolder;
    SystemFolderAdded(fs, id, owner, kind, root);
    db.folders := db.folders[id := SystemRow(owner, kind, root)];
    db.nextFolder := id + 1;
    GrownPlaced(fs, db.folders, owner, db.documents);
    return Ok(id);
  }

  lemma Unchanged(fs: FolderTable, owner: OwnerId)
    ensures Grown(fs, fs, owner)
  {
  }

  /** `ensure_system_folders`: afterwards all three are there, or a name in the root stood in the way. */
  method EnsureSystemFolders(db: Session, owner: OwnerId) returns (r: Result<map<Kind, FolderId>, Error>)
    requires db.Ok()
    modifies db`folders, db`nextFolder
    ensures db.Ok() && old(db.nextFolder) <= db.nextFolder
    ensures r.Ok? ==> Grown(old(db.folders), db.folders, owner)
    ensures r.Ok? ==> forall k :: k != Normal ==> k in r.value && r.value[k] in OfKind(db.folders, owner, k)
    ensures r.Err? ==> r.error == Integrity && db.folders == old(db.folders)
    ensures r.Err? <==> NameTaken(old(db.folders), owner, Inbox) || NameTaken(old(db.folders), owner, Trash)
  {
    hide IsForest, Named, SystemName, Placed, Grown, OfKind;
    var saved := db.folders;
    var first := EnsureSystemFolder(db, owner, Root, None);
    var root := first.value;
    ghost var fs1 := db.folders;
    NameTakenNow(saved, fs1, owner, Inbox, root);
    var second := EnsureSystemFolder(db, owner, Inbox, Some(root));
    if second.Err? {
      db.folders := saved;
      return Err(Integrity);
    }
    ghost var fs2 := db.folders;
    GrownTwice(saved, fs1, fs2, owner);
    GrownKinds(fs1, fs2, owner, Root, root);
    NameTakenNow(saved, fs2, owner, Trash, root);
    var third := EnsureSystemFolder(db, owner, Trash, Some(root));
    if third.Err? {
      db.folders := saved;
      return Err(Integrity);
    }
    GrownTwice(saved, fs2, db.folders, owner);
    GrownKinds(fs2, db.folders, owner, Root, root);
    GrownKinds(fs2, db.folders, owner, Inbox, second.value);
    return Ok(map[Root := root, Inbox := second.value, Trash := third.value]);
  }

  /** The system folder is missing, and names in the root keep the missing ones from being made. */
  ghost predicate SystemRefused(fs: FolderTable, owner: OwnerId, kind: Kind) {
    OfKind(fs, owner, kind) == {} && (NameTaken(fs, owner, Inbox) || NameTaken(fs, owner, Trash))
  }

  /** `get_root`, `get_inbox` and `get_trash`: the one folder of that kind, created with its siblings when missing. */
  method GetSystemFolder(db: Session, owner: OwnerId, kind: Kind) returns (r: Result<FolderId, Error>)
    requires db.Ok() && kind != Normal
    modifies db`folders, db`nextFolder
    ensures db.Ok() && old(db.nextFolder) <= db.nextFolder
    ensures r.Ok? ==> r.value in OfKind(db.folders, owner, kind) && Grown(old(db.folders), db.folders, owner)
    ensures r.Err? || OfKind(old(db.folders), owner, kind) != {} ==> db.folders == old(db.folders)
    ensures r.Ok? && OfKind(old(db.folders), owner, kind) == {} ==>
      forall k :: k != Normal ==> OfKind(db.folders, owner, k) != {}
    ensures r.Err? ==> r.error == Integrity
    ensures r.Err? <==> SystemRefused(old(db.folders), owner, kind)
  {
    hide IsForest, Placed, Grown, OfKind, NameTaken;
    if f :| f in OfKind(db.folders, owner, kind) {
      Unchanged(db.folders, owner);
      return Ok(f);
    }
    var all := EnsureSystemFolders(db, owner);
    match all
    case Ok(found) =>
      forall k | k != Normal
        ensures OfKind(db.folders, owner, k) != {}
      {
        assert found[k] in OfKind(db.folders, owner, k);
      }
      return Ok(found[kind]);
    case Err(e) => return Err(e);
  }

  /** Names only stand in the way under a root, so a missing root can always be made. */
  lemma RootNeverRefused(fs: FolderTable, owner: OwnerId)
    ensures !SystemRefused(fs, owner, Root)
  {
  }

  /** A root made on the way has two children, the other two system folders. */
  lemma FirstFolders(fs: FolderTable, fs': FolderTable, owner: OwnerId, root: FolderId, name: string)
    requires IsForest(fs) && IsForest(fs') && Grown(fs, fs', owner) && OfKind(fs, owner, Root) == {}
    requires root in OfKind(fs', owner, Root) && OfKind(fs', owner, Inbox) != {} && OfKind(fs', owner, Trash) != {}
    ensures Named(fs', owner, root, name) != {} <==> name in {"Inbox", "Trash"}
    ensures forall g :: g in Named(fs', owner, root, name) ==> !fs'[g].trashed
  {
    assert forall f :: f in fs && fs[f].owner == owner && fs[f].kind != Root ==> RowOk(fs, f);
    assert root in fs ==> root in OfKind(fs, owner, Root);
    forall g | g in Named(fs', owner, root, name)
      ensures g !in fs && name in {"Inbox", "Trash"} && !fs'[g].trashed
    {
      assert RowOk(fs', g);
      assert g in fs ==> RowOk(fs, g);
    }
    if name == "Inbox" {
      SystemFolderThere(fs, fs', owner, root, Inbox);
    } else if name == "Trash" {
      SystemFolderThere(fs, fs', owner, root, Trash);
    }
  }

  lemma SystemFolderThere(fs: FolderTable, fs': FolderTable, owner: OwnerId, root: FolderId, kind: Kind)
    requires IsForest(fs) && IsForest(fs') && Grown(fs, fs', owner) && OfKind(fs, owner, Root) == {}
    requires root in OfKind(fs', owner, Root) && (kind == Inbox || kind == Trash) && OfKind(fs', owner, kind) != {}
    ensures Named(fs', owner, root, SystemName(kind)) != {}
  {
    var f :| f in OfKind(fs', owner, kind);
    assert RowOk(fs', f);
    var p := fs'[f].parent.value;
    assert f !in fs by {
      if f in fs {
        assert RowOk(fs, f);
        ParentIsRoot(fs, f);
      }
    }
    assert p in OfKind(fs', owner, Root);
    OneOfKind(fs', owner, Root, root);
    assert f in Named(fs', owner, root, SystemName(kind));
  }

  lemma ParentIsRoot(fs: FolderTable, f: FolderId)
    requires IsForest(fs) && f in fs && (fs[f].kind == Inbox || fs[f].kind == Trash)
    ensures OfKind(fs, fs[f].owner, Root) != {}
  {
    assert RowOk(fs, f);
    assert fs[f].parent.value in OfKind(fs, fs[f].owner, Root);
  }

  // ---------------------------------------------------------------- creating

  /** Why a folder of that name cannot be created there. */
  function CreateRefusal(fs: FolderTable, name: string, parent: FolderId, owner: OwnerId): Option<Error> {
    if name == "" then Some(Invalid)
    else if parent !in fs || fs[parent].owner != owner then Some(NotFound)
    else if fs[parent].kind == Trash then Some(Invalid)
    else if exists g :: g in Named(fs, owner, parent, name) && !fs[g].trashed then Some(Conflict)
    else if Named(fs, owner, parent, name) != {} then Some(Integrity)
    else None
  }

  /** An ordinary folder without any trash mark. */
  predicate IsFreshFolder(row: Folder, name: string, parent: FolderId, owner: OwnerId) {
    && row.name == name && row.parent == Some(parent) && row.owner == owner && row.kind == Normal
    && !row.trashed && row.trashedAt == None
  }

  function NewFolder(name: string, parent: FolderId, owner: OwnerId): Folder {
    Folder(name, Some(parent), owner, Normal, false, None)
  }

  /** No creation is refused without need: a new row is accepted exactly when the table stays a forest with distinct names. */
  lemma CreatesWhenSound(fs: FolderTable, id: FolderId, name: string, parent: FolderId, owner: OwnerId)
    requires IsForest(fs) && id !in fs
    ensures CreateRefusal(fs, name, parent, owner) == None <==> IsForest(fs[id := NewFolder(name, parent, owner)])
  {
    var fs' := fs[id := NewFolder(name, parent, owner)];
    if CreateRefusal(fs, name, parent, owner) == None {
      CreateKeepsForest(fs, id, name, parent, owner);
    } else if IsForest(fs') {
      assert RowOk(fs', id);
      var rank :| Ranked(fs', rank);
      assert ParentIs(fs', id, parent);
      var g :| g in Named(fs, owner, parent, name);
      assert Siblings(fs', id, g);
      assert false;
    }
  }

  lemma CreateKeepsForest(fs: FolderTable, id: FolderId, name: string, parent: FolderId, owner: OwnerId)
    requires IsForest(fs) && id !in fs && CreateRefusal(fs, name, parent, owner) == None
    ensures IsForest(fs[id := NewFolder(name, parent, owner)])
  {
    hide IsForest;
    forall g | g in fs && fs[g].owner == owner && fs[g].parent == Some(parent)
      ensures fs[g].name != name
    {
      assert g in Named(fs, owner, parent, fs[g].name);
    }
    AddFolder(fs, id, NewFolder(name, parent, owner));
  }

  /** `create_folder` with its parent given. */
  method CreateUnder(db: Session, name: string, parent: FolderId, owner: OwnerId) returns (r: Result<FolderId, Error>)
    requires db.Ok()
    modifies db`folders, db`nextFolder
    ensures db.Ok() && old(db.nextFolder) <= db.nextFolder
    ensures match CreateRefusal(old(db.folders), name, parent, owner)
      case Some(e) => r == Err(e) && db.folders == old(db.folders)
      case None => r.Ok? && r.value !in old(db.folders) && db.folders == old(db.folders)[r.value := NewFolder(name, parent, owner)]
    ensures r.Ok? ==> r.value in db.folders && IsFreshFolder(db.folders[r.value], name, parent, owner)
  {
    hide IsForest, Placed;
    if name == "" {
      return Err(Invalid);
    }
    if parent !in db.folders || db.folders[parent].owner != owner {
      return Err(NotFound);
    }
    if db.folders[parent].kind == Trash {
      return Err(Invalid);
    }
    if exists g :: g in Named(db.folders, owner, parent, name) && !db.folders[g].trashed {
      return Err(Conflict);
    }
    if Named(db.folders, owner, parent, name) != {} {
      return Err(Integrity);
    }
    var id := db.nextFolder;
    ghost var fs := db.folders;
    CreateKeepsForest(fs, id, name, parent, owner);
    db.folders := db.folders[id := NewFolder(name, parent, owner)];
    db.nextFolder := id + 1;
    PlacedIn(fs, db.folders, db.documents);
    return Ok(id);
  }

  /** `create_folder`: without a parent the folder goes under the root. */
  method CreateFolder(db: Session, name: string, parent: Option<FolderId>, owner: OwnerId) returns (r: Result<FolderId, Error>)
    requires db.Ok()
    modifies db`folders, db`nextFolder
    ensures db.Ok()
    ensures r.Err? ==> db.folders == old(db.folders)
    ensures forall p :: parent == Some(p) || (parent == None && p in OfKind(old(db.folders), owner, Root)) ==>
      match CreateRefusal(old(db.folders), name, p, owner)
      case Some(e) => r == Err(e)
      case None => r.Ok? && r.value !in old(db.folders) && db.folders == old(db.folders)[r.value := NewFolder(name, p, owner)]
    ensures parent == None && OfKind(old(db.folders), owner, Root) == {} ==>
      if name == "" then r == Err(Invalid) else if name in {"Inbox", "Trash"} then r == Err(Conflict)
      else r.Ok? && r.value in db.folders && exists root ::
        root in OfKind(db.folders, owner, Root) && db.folders[r.value] == NewFolder(name, root, owner)
    ensures r.Ok? ==> r.value in db.folders && r.value !in old(db.folders) && Grown(old(db.folders), db.folders - {r.value}, owner)
  {
    hide IsForest, Placed, Named, NameTaken, SystemRefused;
    var saved := db.folders;
    if parent.Some? {
      r := CreateUnder(db, name, parent.value, owner);
      assert r.Ok? ==> db.folders - {r.value} == saved;
      Unchanged(saved, owner);
      return;
    }
    if name == "" {
      return Err(Invalid);
    }
    RootNeverRefused(saved, owner);
    var root := GetSystemFolder(db, owner, Root);
    // `root` is never an error: RootNeverRefused
    ghost var base := db.folders;
    if OfKind(saved, owner, Root) == {} {
      FirstFolders(saved, base, owner, root.value, name);
    }
    assert forall p :: p in OfKind(saved, owner, Root) ==> p == root.value by {
      forall p | p in OfKind(saved, owner, Root)
        ensures p == root.value
      {
        GrownKinds(saved, base, owner, Root, p);
        OneOfKind(base, owner, Root, root.value);
      }
    }
    r := CreateUnder(db, name, root.value, owner);
    if r.Err? {
      db.folders := saved;
      return;
    }
    assert db.folders - {r.value} == base;
  }

  function Revived(fs: FolderTable, f: FolderId): FolderTable
    requires f in fs
  {
    fs[f := fs[f].(trashed := false, trashedAt := None)]
  }

  function WithNew(fs: FolderTable, id: FolderId, name: string, parent: FolderId): FolderTable
    requires parent in fs
  {
    fs[id := NewFolder(name, parent, fs[parent].owner)]
  }

  /** The children of that name: at most one, counting trashed ones. */
  function ChildNamed(fs: FolderTable, parent: FolderId, name: string): set<FolderId>
    requires parent in fs
  {
    Named(fs, fs[parent].owner, parent, name)
  }

  /** A folder of that name is there and cannot be used: the trash folder, or a system folder that is in the trash. */
  ghost predicate Blocked(fs: FolderTable, parent: FolderId, name: string) {
    parent in fs && exists f :: f in ChildNamed(fs, parent, name) && (fs[f].kind == Trash || (fs[f].trashed && fs[f].kind != Normal))
  }

  lemma NamedIsNotEmpty(fs: FolderTable, parent: FolderId, name: string, f: FolderId)
    requires IsForest(fs) && parent in fs && f in ChildNamed(fs, parent, name)
    ensures name != ""
    ensures fs[f].kind != Root && (fs[parent].kind != Root ==> fs[f].kind == Normal)
  {
    assert RowOk(fs, f);
  }

  /**
    `ensure_child_folder`: an active child is returned as it is, a trashed ordinary one is revived (its row only),
    a missing one is created. The conflict that the source catches from `create_folder` never arises.
   */
  method EnsureChild(db: Session, parent: FolderId, name: string) returns (r: Result<FolderId, Error>)
    requires db.Ok()
    modifies db`folders, db`nextFolder
    ensures db.Ok() && old(db.nextFolder) <= db.nextFolder
    ensures r.Err? ==> db.folders == old(db.folders)
    ensures parent !in old(db.folders) ==> r == Err(NotFound)
    ensures r.Err? ==> r.error == NotFound || r.error == Invalid
    ensures r.Err? <==> (
      || parent !in old(db.folders) || name == "" || Blocked(old(db.folders), parent, name)
      || (old(db.folders)[parent].kind == Trash && ChildNamed(old(db.folders), parent, name) == {}))
    ensures r.Ok? ==> IsStep(db.folders, parent, name, r.value) && OnlyRevived(old(db.folders), db.folders)
    ensures forall f: FolderId :: IsStep(old(db.folders), parent, name, f) ==> r == Ok(f) && db.folders == old(db.folders)
    ensures parent in old(db.folders) ==> forall f :: f in ChildNamed(old(db.folders), parent, name) ==>
      if old(db.folders)[f].kind == Trash then r == Err(Invalid)
      else if !old(db.folders)[f].trashed then r == Ok(f) && db.folders == old(db.folders)
      else if old(db.folders)[f].kind != Normal then r == Err(Invalid)
      else r == Ok(f) && db.folders == Revived(old(db.folders), f)
    ensures parent in old(db.folders) && ChildNamed(old(db.folders), parent, name) == {} ==>
      if name == "" || old(db.folders)[parent].kind == Trash then r == Err(Invalid)
      else r.Ok? && r.value !in old(db.folders) && db.folders == WithNew(old(db.folders), r.value, name, parent)
  {
    hide IsForest, Placed;
    if parent !in db.folders {
      return Err(NotFound);
    }
    var owner := db.folders[parent].owner;
    var existing := ChildNamed(db.folders, parent, name);
    if existing != {} {
      var f :| f in existing;
      NamedIsNotEmpty(db.folders, parent, name, f);
      AtMostOneNamed(db.folders, owner, parent, name, f);
      if !db.folders[f].trashed {
        return if db.folders[f].kind == Trash then Err(Invalid) else Ok(f);
      }
      if db.folders[f].kind != Normal {
        return Err(Invalid);
      }
      ghost var fs := db.folders;
      MarkFolders(fs, Revived(fs, f));
      db.folders := Revived(db.folders, f);
      PlacedIn(fs, db.folders, db.documents);
      return Ok(f);
    }
    r := CreateUnder(db, name, parent, owner);
  }

  /** `to` is reached from `from` along active folders of these names, none of them Trash. */
  ghost predicate Leads(fs: FolderTable, from: FolderId, segments: seq<string>, to: FolderId)
    decreases |segments|
  {
    if segments == [] then to == from
    else exists c :: IsStep(fs, from, segments[0], c) && Leads(fs, c, segments[1..], to)
  }

  ghost predicate IsStep(fs: FolderTable, from: FolderId, name: string, to: FolderId) {
    from in fs && to in ChildNamed(fs, from, name) && !fs[to].trashed && fs[to].kind != Trash
  }

  predicate NoParentFor(fs: FolderTable, parent: FolderId) {
    parent !in fs || fs[parent].kind == Trash
  }

  /** Why the path cannot be ensured: only its first name can meet a system folder. */
  ghost predicate PathRefused(fs: FolderTable, parent: FolderId, segments: seq<string>) {
    NoParentFor(fs, parent) || "" in segments || (segments != [] && Blocked(fs, parent, segments[0]))
  }

  /** The step along the path succeeds or fails as the path itself does. */
  lemma StepRefused(
    saved: FolderTable, fs: FolderTable, parent: FolderId, segments: seq<string>, i: nat, current: FolderId, failed: bool)
    requires IsForest(fs) && i < |segments| && !NoParentFor(saved, parent)
    requires if i == 0 then fs == saved && current == parent
      else !Blocked(saved, parent, segments[0]) && current in fs && fs[current].kind != Root && fs[current].kind != Trash
    requires failed <==> (
      || current !in fs || segments[i] == "" || Blocked(fs, current, segments[i])
      || (fs[current].kind == Trash && ChildNamed(fs, current, segments[i]) == {}))
    ensures failed ==> PathRefused(saved, parent, segments)
    ensures !failed ==> segments[i] != "" && !Blocked(saved, parent, segments[0])
  {
    if i > 0 && Blocked(fs, current, segments[i]) {
      var f :| f in ChildNamed(fs, current, segments[i]) && (fs[f].kind == Trash || (fs[f].trashed && fs[f].kind != Normal));
      NamedIsNotEmpty(fs, current, segments[i], f);
    }
    assert segments[i] in segments;
  }

  /** Rows only gained, or ordinary ones taken out of the trash. */
  ghost predicate OnlyRevived(fs: FolderTable, fs': FolderTable) {
    forall f :: f in fs ==> f in fs' && (fs'[f] == fs[f] || (fs[f].kind == Normal && fs'[f] == fs[f].(trashed := false, trashedAt := None)))
  }

  lemma {:induction false} LeadsStill(fs: FolderTable, fs': FolderTable, from: FolderId, segments: seq<string>, to: FolderId)
    requires OnlyRevived(fs, fs') && Leads(fs, from, segments, to)
    ensures Leads(fs', from, segments, to)
    decreases |segments|
  {
    if segments != [] {
      var c :| IsStep(fs, from, segments[0], c) && Leads(fs, c, segments[1..], to);
      LeadsStill(fs, fs', c, segments[1..], to);
      assert IsStep(fs', from, segments[0], c);
    }
  }

  lemma {:induction false} LeadsOn(fs: FolderTable, from: FolderId, segments: seq<string>, mid: FolderId, name: string, to: FolderId)
    requires Leads(fs, from, segments, mid) && IsStep(fs, mid, name, to)
    ensures Leads(fs, from, segments + [name], to)
    decreases |segments|
  {
    if segments == [] {
      assert Leads(fs, to, (segments + [name])[1..], to);
    } else {
      var c :| IsStep(fs, from, segments[0], c) && Leads(fs, c, segments[1..], mid);
      LeadsOn(fs, c, segments[1..], mid, name, to);
      assert (segments + [name])[1..] == segments[1..] + [name];
    }
  }

  lemma {:induction false} LeadsInside(fs: FolderTable, from: FolderId, segments: seq<string>, to: FolderId)
    requires Leads(fs, from, segments, to) && !NoParentFor(fs, from)
    ensures to in fs && fs[to].owner == fs[from].owner && fs[to].kind != Trash
    decreases |segments|
  {
    if segments != [] {
      var c :| IsStep(fs, from, segments[0], c) && Leads(fs, c, segments[1..], to);
      LeadsInside(fs, c, segments[1..], to);
    }
  }

  /** Every way that was complete at the start still lies ahead, in an unchanged table. */
  ghost predicate StillAhead(fs: FolderTable, now: FolderTable, parent: FolderId, segments: seq<string>, i: nat, current: FolderId)
    requires i <= |segments|
  {
    forall f: FolderId :: Leads(fs, parent, segments, f) ==> now == fs && Leads(fs, current, segments[i..], f)
  }

  lemma AheadAfterStep(
    fs: FolderTable, now: FolderTable, now': FolderTable, parent: FolderId, segments: seq<string>, i: nat,
    current: FolderId, r: Result<FolderId, Error>)
    requires i < |segments| && StillAhead(fs, now, parent, segments, i, current)
    requires forall c: FolderId :: IsStep(now, current, segments[i], c) ==> r == Ok(c) && now' == now
    ensures r.Err? ==> forall f: FolderId :: !Leads(fs, parent, segments, f)
    ensures r.Ok? ==> StillAhead(fs, now', parent, segments, i + 1, r.value)
  {
    forall f: FolderId | Leads(fs, parent, segments, f)
      ensures r.Ok? && now' == fs && Leads(fs, r.value, segments[i + 1..], f)
    {
      var c := NextOnPath(fs, current, segments[i..], f);
      assert segments[i..][1..] == segments[i + 1..];
    }
  }

  /**
    `ensure_folder_path`: on success every name of the path leads to an active folder, and a path that was complete
    before is returned without any change, so asking twice is the same as asking once.
   */
  method EnsurePath(db: Session, parent: FolderId, segments: seq<string>) returns (r: Result<FolderId, Error>)
    requires db.Ok()
    modifies db`folders, db`nextFolder
    ensures db.Ok() && old(db.nextFolder) <= db.nextFolder
    ensures r.Err? ==> db.folders == old(db.folders)
    ensures r.Err? ==> r.error == NotFound || r.error == Invalid
    ensures r.Err? <==> PathRefused(old(db.folders), parent, segments)
    ensures NoParentFor(old(db.folders), parent) ==> r == Err(if parent in old(db.folders) then Invalid else NotFound)
    ensures r.Ok? ==> Leads(db.folders, parent, segments, r.value) && OnlyRevived(old(db.folders), db.folders)
    ensures r.Ok? ==> !NoParentFor(db.folders, parent) && !NoParentFor(db.folders, r.value)
    ensures r.Ok? ==> db.folders[r.value].owner == db.folders[parent].owner
    ensures forall f: FolderId :: Leads(old(db.folders), parent, segments, f) && !NoParentFor(old(db.folders), parent) ==>
      r == Ok(f) && db.folders == old(db.folders)
  {
    hide IsForest, Placed, OnlyRevived;
    if parent !in db.folders {
      return Err(NotFound);
    }
    if db.folders[parent].kind == Trash {
      return Err(Invalid);
    }
    PathStart(db.folders, parent, segments);
    var saved := db.folders;
    var current := parent;
    for i := 0 to |segments|
      invariant db.Ok() && old(db.nextFolder) <= db.nextFolder
      invariant OnlyRevived(saved, db.folders)
      invariant Leads(db.folders, parent, segments[..i], current)
      invariant StillAhead(saved, db.folders, parent, segments, i, current)
      invariant "" !in segments[..i]
      invariant if i == 0 then db.folders == saved && current == parent
        else !Blocked(saved, parent, segments[0]) && current in db.folders && NotSystem(db.folders, current)
    {
      hide Leads, StillAhead, NoParentFor, IsStep, Blocked, ChildNamed, PathRefused;
      ghost var fs := db.folders;
      var child := EnsureChild(db, current, segments[i]);
      StepRefused(saved, fs, parent, segments, i, current, child.Err?);
      AheadAfterStep(saved, fs, db.folders, parent, segments, i, current, child);
      if child.Err? {
        db.folders := saved;
        return child;
      }
      LeadsStill(fs, db.folders, parent, segments[..i], current);
      LeadsOn(db.folders, parent, segments[..i], current, segments[i], child.value);
      RevivedTwice(saved, fs, db.folders);
      StepIsOrdinary(db.folders, current, segments[i], child.value);
      assert segments[..i + 1] == segments[..i] + [segments[i]];
      current := child.value;
    }
    assert segments[..|segments|] == segments;
    ParentStays(saved, db.folders, parent);
    LeadsInside(db.folders, parent, segments, current);
    return Ok(current);
  }

  lemma PathStart(fs: FolderTable, parent: FolderId, segments: seq<string>)
    ensures OnlyRevived(fs, fs) && Leads(fs, parent, segments[..0], parent) && StillAhead(fs, fs, parent, segments, 0, parent)
  {
  }

  predicate NotSystem(fs: FolderTable, f: FolderId)
    requires f in fs
  {
    fs[f].kind != Root && fs[f].kind != Trash
  }

  lemma StepIsOrdinary(fs: FolderTable, from: FolderId, name: string, to: FolderId)
    requires IsForest(fs) && IsStep(fs, from, name, to)
    ensures to in fs && NotSystem(fs, to)
  {
    NamedIsNotEmpty(fs, from, name, to);
  }

  lemma ParentStays(fs: FolderTable, fs': FolderTable, parent: FolderId)
    requires OnlyRevived(fs, fs') && !NoParentFor(fs, parent)
    ensures !NoParentFor(fs', parent)
  {
  }

  lemma RevivedTwice(a: FolderTable, b: FolderTable, c: FolderTable)
    requires OnlyRevived(a, b) && OnlyRevived(b, c)
    ensures OnlyRevived(a, c)
  {
  }

  lemma NextOnPath(fs: FolderTable, from: FolderId, segments: seq<string>, to: FolderId) returns (c: FolderId)
    requires segments != [] && Leads(fs, from, segments, to)
    ensures IsStep(fs, from, segments[0], c) && Leads(fs, c, segments[1..], to)
  {
    c :| IsStep(fs, from, segments[0], c) && Leads(fs, c, segments[1..], to);
  }

  // ---------------------------------------------------------------- moving

  /** Why the folder cannot be moved there. */
  ghost function MoveRefusal(fs: FolderTable, f: FolderId, parent: FolderId, owner: OwnerId): Option<Error> {
    if f !in fs || fs[f].owner != owner then Some(NotFound)
    else if fs[f].kind != Normal then Some(Invalid)
    else if parent !in fs || fs[parent].owner != owner then Some(NotFound)
    else if fs[parent].kind == Trash || parent in Subtree(fs, f) then Some(Invalid)
    else if Named(fs, owner, parent, fs[f].name) - {f} != {} then Some(Conflict)
    else None
  }

  lemma MoveKeepsForest(fs: FolderTable, f: FolderId, parent: FolderId, owner: OwnerId)
    requires IsForest(fs) && MoveRefusal(fs, f, parent, owner) == None
    ensures IsForest(Reparented(fs, f, parent))
  {
    hide IsForest;
    forall g | g in fs && g != f && fs[g].owner == fs[f].owner && fs[g].parent == Some(parent)
      ensures fs[g].name != fs[f].name
    {
      assert g in Named(fs, owner, parent, fs[g].name) - {f};
    }
    MoveFolderRow(fs, f, parent);
  }

  /**
    No move is refused without need: an ordinary folder of the owner may be moved exactly when that leaves a forest
    with distinct names, one owner along every chain and nothing in the trash folder.
   */
  lemma MovesWhenSound(fs: FolderTable, f: FolderId, parent: FolderId, owner: OwnerId)
    requires IsForest(fs) && f in fs && fs[f].owner == owner && fs[f].kind == Normal
    ensures MoveRefusal(fs, f, parent, owner) == None <==> IsForest(Reparented(fs, f, parent))
  {
    var fs' := Reparented(fs, f, parent);
    if MoveRefusal(fs, f, parent, owner) == None {
      MoveKeepsForest(fs, f, parent, owner);
    } else if parent in fs && fs[parent].owner == owner && fs[parent].kind != Trash {
      if Under(fs, f, parent) {
        MoveKeepsRank(fs, f, parent);
      } else {
        var g :| g in Named(fs, owner, parent, fs[f].name) - {f};
        assert Siblings(fs', f, g);
      }
    } else {
      assert fs'.Keys == fs.Keys && !RowOk(fs', f);
    }
  }

  /** `move_folder`: refused exactly for the reasons above, else only the parent of one row changes. */
  method MoveFolder(db: Session, f: FolderId, parent: FolderId, owner: OwnerId) returns (r: Result<FolderId, Error>)
    requires db.Ok()
    modifies db`folders
    ensures db.Ok()
    ensures match MoveRefusal(old(db.folders), f, parent, owner)
      case Some(e) => r == Err(e) && db.folders == old(db.folders)
      case None => r == Ok(f) && db.folders == Reparented(old(db.folders), f, parent)
  {
    hide IsForest, Placed, Named, Under;
    if f !in db.folders || db.folders[f].owner != owner {
      return Err(NotFound);
    }
    if db.folders[f].kind != Normal {
      return Err(Invalid);
    }
    if parent !in db.folders || db.folders[parent].owner != owner {
      return Err(NotFound);
    }
    if db.folders[parent].kind == Trash {
      return Err(Invalid);
    }
    var cycle := WouldCreateCycle(db.folders, f, parent);
    CycleCheckIsSubtree(db.folders, f, parent);
    if cycle {
      return Err(Invalid);
    }
    if Named(db.folders, owner, parent, db.folders[f].name) - {f} != {} {
      return Err(Conflict);
    }
    ghost var fs := db.folders;
    MoveKeepsForest(fs, f, parent, owner);
    db.folders := Reparented(db.folders, f, parent);
    PlacedIn(fs, db.folders, db.documents);
    return Ok(f);
  }
}
