/**
  The folder table: parent chains, subtrees, and the table updates that keep every chain ending
  at the root of its owner.
 */
module Forest {
  import opened Wrappers

  type FolderId = nat
  type OwnerId = nat
  type Time = int

  datatype Kind = Root | Inbox | Trash | Normal

  datatype Folder = Folder(
    name: string, parent: Option<FolderId>, owner: OwnerId, kind: Kind, trashed: bool, trashedAt: Option<Time>)

  type FolderTable = map<FolderId, Folder>

  /** Each folder of the path is the child of the next one. */
  ghost predicate IsChain(fs: FolderTable, path: seq<FolderId>) {
    forall i :: 0 <= i < |path| - 1 ==> path[i] in fs && fs[path[i]].parent == Some(path[i + 1])
  }

  ghost predicate Climbs(fs: FolderTable, path: seq<FolderId>, x: FolderId, top: FolderId) {
    path != [] && path[0] == x && path[|path| - 1] == top && IsChain(fs, path)
  }

  /** `x` is `top`, or lies somewhere below it. */
  ghost predicate Under(fs: FolderTable, top: FolderId, x: FolderId) {
    exists path :: Climbs(fs, path, x, top)
  }

  /** Some chain upward from `x` meets a folder twice. */
  ghost predicate Loops(fs: FolderTable, x: FolderId) {
    exists path, i, j :: 0 <= i < j < |path| && path[0] == x && path[i] == path[j] && IsChain(fs, path)
  }

  ghost function Subtree(fs: FolderTable, top: FolderId): set<FolderId> {
    set x | x in fs && Under(fs, top, x)
  }

  predicate ParentIs(fs: FolderTable, x: FolderId, p: FolderId) {
    x in fs && fs[x].parent == Some(p)
  }

  /** What each row promises: it has a name, owners agree along parents, only roots are parentless, Inbox and Trash
      sit in a root, and nothing sits in Trash. */
  ghost predicate RowOk(fs: FolderTable, f: FolderId)
    requires f in fs
  {
    fs[f].name != "" &&
    match fs[f].parent
    case None => fs[f].kind == Root
    case Some(p) =>
      && p in fs && fs[p].owner == fs[f].owner && fs[f].kind != Root
      && fs[p].kind != Trash && (fs[f].kind != Normal ==> fs[p].kind == Root)
  }

  ghost predicate Siblings(fs: FolderTable, f: FolderId, g: FolderId) {
    f in fs && g in fs && fs[f].owner == fs[g].owner && fs[f].parent == fs[g].parent && fs[f].name == fs[g].name
  }

  ghost predicate SameSystem(fs: FolderTable, f: FolderId, g: FolderId) {
    f in fs && g in fs && fs[f].owner == fs[g].owner && fs[f].kind == fs[g].kind && fs[f].kind != Normal
  }

  ghost predicate WellFormed(fs: FolderTable) {
    && (forall f :: f in fs ==> RowOk(fs, f))
    && (forall f, g :: Siblings(fs, f, g) && fs[f].parent.Some? ==> f == g)
    && (forall f, g :: SameSystem(fs, f, g) ==> f == g)
  }

  /** A measure that strictly falls from child to parent. */
  ghost predicate Ranked(fs: FolderTable, rank: FolderId -> nat) {
    forall x, p :: ParentIs(fs, x, p) ==> rank(p) < rank(x)
  }

  ghost predicate IsForest(fs: FolderTable) {
    WellFormed(fs) && exists rank :: Ranked(fs, rank)
  }

  // ---------------------------------------------------------------- chains

  lemma UnderStep(fs: FolderTable, top: FolderId, x: FolderId, p: FolderId)
    requires ParentIs(fs, x, p)
    ensures Under(fs, top, p) ==> Under(fs, top, x)
    ensures Under(fs, top, x) && x != top ==> Under(fs, top, p)
  {
    if Under(fs, top, p) {
      var path :| Climbs(fs, path, p, top);
      assert Climbs(fs, [x] + path, x, top);
    }
    if Under(fs, top, x) && x != top {
      var path :| Climbs(fs, path, x, top);
      assert Climbs(fs, path[1..], p, top);
    }
  }

  lemma UnderSelf(fs: FolderTable, top: FolderId)
    ensures Under(fs, top, top)
  {
    assert Climbs(fs, [top], top, top);
  }

  lemma UnderHasParent(fs: FolderTable, top: FolderId, x: FolderId)
    requires Under(fs, top, x) && x != top
    ensures x in fs && fs[x].parent.Some? && Under(fs, top, fs[x].parent.value)
  {
    var path :| Climbs(fs, path, x, top);
    UnderStep(fs, top, x, path[1]);
  }

  /** Going up never raises the rank, so a folder lies below no child of its own. */
  lemma {:induction false} UnderRank(fs: FolderTable, rank: FolderId -> nat, top: FolderId, x: FolderId)
    requires Ranked(fs, rank) && Under(fs, top, x)
    ensures rank(top) <= rank(x) && (x != top ==> rank(top) < rank(x))
    decreases rank(x)
  {
    if x != top {
      UnderHasParent(fs, top, x);
      assert ParentIs(fs, x, fs[x].parent.value);
      UnderRank(fs, rank, top, fs[x].parent.value);
    }
  }

  /** Chains from one folder are prefixes of each other: there is only one way up. */
  lemma {:induction false} OneWayUp(fs: FolderTable, p: seq<FolderId>, q: seq<FolderId>, i: nat)
    requires IsChain(fs, p) && IsChain(fs, q) && i < |p| && i < |q| && p[0] == q[0]
    ensures p[i] == q[i]
  {
    if i > 0 {
      OneWayUp(fs, p, q, i - 1);
    }
  }

  lemma ForestNeverLoops(fs: FolderTable, rank: FolderId -> nat, x: FolderId)
    requires Ranked(fs, rank)
    ensures !Loops(fs, x)
  {
    forall path, i, j | 0 <= i < j < |path| && path[0] == x && IsChain(fs, path)
      ensures path[i] != path[j]
    {
      assert Climbs(fs, path[i + 1..j + 1], path[i + 1], path[j]);
      UnderRank(fs, rank, path[j], path[i + 1]);
      assert ParentIs(fs, path[i], path[i + 1]);
    }
  }

  /** Every parent chain is finite and ends at the root of the folder's owner. */
  lemma {:induction false} ChainEndsAtRoot(fs: FolderTable, rank: FolderId -> nat, x: FolderId) returns (root: FolderId)
    requires WellFormed(fs) && Ranked(fs, rank) && x in fs
    ensures root in fs && fs[root].kind == Root && fs[root].parent == None && fs[root].owner == fs[x].owner
    ensures Under(fs, root, x)
    decreases rank(x)
  {
    assert RowOk(fs, x);
    match fs[x].parent
    case None =>
      UnderSelf(fs, x);
      root := x;
    case Some(p) =>
      assert ParentIs(fs, x, p);
      root := ChainEndsAtRoot(fs, rank, p);
      UnderStep(fs, root, x, p);
  }

  /** Below an ordinary folder there are only ordinary folders of the same owner. */
  lemma {:induction false} SubtreeIsOrdinary(fs: FolderTable, rank: FolderId -> nat, top: FolderId, x: FolderId)
    requires WellFormed(fs) && Ranked(fs, rank) && top in fs && fs[top].kind == Normal && Under(fs, top, x)
    ensures x in fs && fs[x].kind == Normal && fs[x].owner == fs[top].owner
    decreases rank(x)
  {
    if x != top {
      UnderHasParent(fs, top, x);
      var p := fs[x].parent.value;
      assert ParentIs(fs, x, p) && RowOk(fs, x);
      SubtreeIsOrdinary(fs, rank, top, p);
    }
  }

  // ---------------------------------------------------------------- table updates

  /** A new folder under an existing parent of the same owner, with a name nobody there has. */
  lemma AddFolder(fs: FolderTable, id: FolderId, f: Folder)
    requires IsForest(fs) && id !in fs && f.name != ""
    requires f.parent.Some? && f.parent.value in fs && fs[f.parent.value].owner == f.owner
    requires f.kind != Root && fs[f.parent.value].kind != Trash && (f.kind != Normal ==> fs[f.parent.value].kind == Root)
    requires forall g :: g in fs && fs[g].owner == f.owner && fs[g].parent == f.parent ==> fs[g].name != f.name
    requires f.kind != Normal ==> forall g :: g in fs && fs[g].owner == f.owner ==> fs[g].kind != f.kind
    ensures IsForest(fs[id := f])
  {
    var fs' := fs[id := f];
    var rank :| Ranked(fs, rank);
    var rank' := (x: FolderId) => if x == id then rank(f.parent.value) + 1 else rank(x);
    forall x, p | ParentIs(fs', x, p)
      ensures rank'(p) < rank'(x)
    {
      if x != id {
        assert ParentIs(fs, x, p) && RowOk(fs, x);
      }
    }
    assert Ranked(fs', rank');
    forall g | g in fs'
      ensures RowOk(fs', g)
    {
      assert g in fs ==> RowOk(fs, g);
    }
    forall g, h | Siblings(fs', g, h) && fs'[g].parent.Some?
      ensures g == h
    {
      assert g != id && h != id ==> Siblings(fs, g, h);
    }
    forall g, h | SameSystem(fs', g, h)
      ensures g == h
    {
      assert g != id && h != id ==> SameSystem(fs, g, h);
    }
  }

  /** A first root for an owner that has no folder of that kind. */
  lemma AddRoot(fs: FolderTable, id: FolderId, f: Folder)
    requires IsForest(fs) && id !in fs && f.name != "" && f.parent == None && f.kind == Root
    requires forall g :: g in fs && fs[g].owner == f.owner ==> fs[g].kind != Root
    ensures IsForest(fs[id := f])
  {
    var fs' := fs[id := f];
    var rank :| Ranked(fs, rank);
    assert Ranked(fs', rank);
    forall g | g in fs'
      ensures RowOk(fs', g)
    {
      assert g in fs ==> RowOk(fs, g);
    }
    forall g, h | Siblings(fs', g, h) && fs'[g].parent.Some?
      ensures g == h
    {
      assert g != id && h != id ==> Siblings(fs, g, h);
    }
    forall g, h | SameSystem(fs', g, h)
      ensures g == h
    {
      assert g != id && h != id ==> SameSystem(fs, g, h);
    }
  }

  function Reparented(fs: FolderTable, f: FolderId, parent: FolderId): FolderTable
    requires f in fs
  {
    fs[f := fs[f].(parent := Some(parent))]
  }

  /** Moving a folder keeps the forest exactly when the new parent is not in its own subtree. */
  lemma MoveKeepsRank(fs: FolderTable, f: FolderId, parent: FolderId)
    requires (exists rank :: Ranked(fs, rank)) && f in fs && parent in fs
    ensures (exists rank :: Ranked(Reparented(fs, f, parent), rank)) <==> !Under(fs, f, parent)
  {
    var fs' := Reparented(fs, f, parent);
    var rank :| Ranked(fs, rank);
    if Under(fs, f, parent) {
      if exists r :: Ranked(fs', r) {
        var r :| Ranked(fs', r);
        StillUnder(fs, rank, f, parent, parent);
        UnderRank(fs', r, f, parent);
        assert ParentIs(fs', f, parent);
      }
    } else {
      ghost var rank' := (x: FolderId) => if Under(fs, f, x) then rank(x) + rank(parent) + 1 else rank(x);
      forall x, p | ParentIs(fs', x, p)
        ensures rank'(p) < rank'(x)
      {
        if x == f {
          UnderSelf(fs, f);
        } else {
          assert ParentIs(fs, x, p);
          UnderStep(fs, f, x, p);
        }
      }
      assert Ranked(fs', rank');
    }
  }

  /** Chains that end at the moved folder do not use its old parent. */
  lemma {:induction false} StillUnder(fs: FolderTable, rank: FolderId -> nat, f: FolderId, parent: FolderId, x: FolderId)
    requires Ranked(fs, rank) && f in fs && Under(fs, f, x)
    ensures Under(Reparented(fs, f, parent), f, x)
    decreases rank(x)
  {
    var fs' := Reparented(fs, f, parent);
    if x == f {
      UnderSelf(fs', f);
    } else {
      UnderHasParent(fs, f, x);
      var p := fs[x].parent.value;
      assert ParentIs(fs, x, p) && ParentIs(fs', x, p);
      StillUnder(fs, rank, f, parent, p);
      UnderStep(fs', f, x, p);
    }
  }

  lemma MoveFolderRow(fs: FolderTable, f: FolderId, parent: FolderId)
    requires IsForest(fs) && f in fs && parent in fs && fs[f].kind == Normal && fs[parent].owner == fs[f].owner
    requires fs[parent].kind != Trash
    requires !Under(fs, f, parent)
    requires forall g :: g in fs && g != f && fs[g].owner == fs[f].owner && fs[g].parent == Some(parent) ==> fs[g].name != fs[f].name
    ensures IsForest(Reparented(fs, f, parent))
  {
    var fs' := Reparented(fs, f, parent);
    MoveKeepsRank(fs, f, parent);
    forall g | g in fs'
      ensures RowOk(fs', g)
    {
      assert RowOk(fs, g);
    }
    forall g, h | Siblings(fs', g, h) && fs'[g].parent.Some?
      ensures g == h
    {
      if g != f && h != f {
        assert Siblings(fs, g, h);
      }
    }
    forall g, h | SameSystem(fs', g, h)
      ensures g == h
    {
      assert SameSystem(fs, g, h);
    }
  }

  /** Removing folders whose children are all removed too. */
  lemma RemoveFolders(fs: FolderTable, gone: set<FolderId>)
    requires IsForest(fs)
    requires forall x, p :: ParentIs(fs, x, p) && p in gone ==> x in gone
    ensures IsForest(fs - gone)
  {
    var fs' := fs - gone;
    var rank :| Ranked(fs, rank);
    assert forall x, p :: ParentIs(fs', x, p) ==> ParentIs(fs, x, p);
    assert Ranked(fs', rank);
    forall g | g in fs'
      ensures RowOk(fs', g)
    {
      assert RowOk(fs, g);
      assert fs[g].parent.Some? ==> ParentIs(fs, g, fs[g].parent.value);
    }
    assert forall g, h :: Siblings(fs', g, h) ==> Siblings(fs, g, h);
    assert forall g, h :: SameSystem(fs', g, h) ==> SameSystem(fs, g, h);
  }

  /** Changing trash marks leaves the forest as it is. */
  lemma MarkFolders(fs: FolderTable, fs': FolderTable)
    requires IsForest(fs) && fs.Keys == fs'.Keys
    requires forall f :: f in fs ==> fs'[f].(trashed := fs[f].trashed, trashedAt := fs[f].trashedAt) == fs[f]
    ensures IsForest(fs')
  {
    var rank :| Ranked(fs, rank);
    assert forall x, p :: ParentIs(fs', x, p) ==> ParentIs(fs, x, p);
    assert Ranked(fs', rank);
    forall g | g in fs'
      ensures RowOk(fs', g)
    {
      assert RowOk(fs, g);
    }
    assert forall g, h :: Siblings(fs', g, h) ==> Siblings(fs, g, h);
    assert forall g, h :: SameSystem(fs', g, h) ==> SameSystem(fs, g, h);
  }
}
