/** The folder services. A service that fails leaves the session as it was: its caller rolls back. */
module Folders {
  import opened Wrappers
  import opened Forest
  import opened Library

  // ---------------------------------------------------------------- queries

  function OfKind(fs: FolderTable, owner: OwnerId, kind: Kind): set<FolderId> {
    set f | f in fs && fs[f].owner == owner && fs[f].kind == kind
  }

  function Named(fs: FolderTable, owner: OwnerId, parent: FolderId, name: string): set<FolderId> {
    set f | f in fs && fs[f].owner == owner && fs[f].parent == Some(parent) && fs[f].name == name
  }

  function Children(fs: FolderTable, parent: FolderId): set<FolderId> {
    set f | f in fs && fs[f].parent == Some(parent)
  }

  function DocsIn(docs: DocumentTable, folder: FolderId): set<DocId> {
    set d | d in docs && docs[d].folder == folder
  }

  lemma AtMostOneNamed(fs: FolderTable, owner: OwnerId, parent: FolderId, name: string, f: FolderId)
    requires IsForest(fs) && f in Named(fs, owner, parent, name)
    ensures Named(fs, owner, parent, name) == {f}
  {
    forall g | g in Named(fs, owner, parent, name)
      ensures g == f
    {
      assert Siblings(fs, f, g);
    }
  }

  /** The way up from `start` as far as it was walked; all but its last folder have been visited. */
  ghost predicate WalkedTo(fs: FolderTable, path: seq<FolderId>, start: FolderId, folder: FolderId, seen: set<FolderId>) {
    && path != [] && path[0] == start && IsChain(fs, path)
    && (forall x :: x in seen <==> x in path[..|path| - 1])
    && (forall i, j :: 0 <= i < j < |path| - 1 ==> path[i] != path[j])
    && seen <= fs.Keys && folder !in seen
  }

  lemma WalkOn(fs: FolderTable, path: seq<FolderId>, start: FolderId, folder: FolderId, seen: set<FolderId>, p: FolderId)
    requires WalkedTo(fs, path, start, folder, seen)
    requires path[|path| - 1] !in seen && path[|path| - 1] != folder && ParentIs(fs, path[|path| - 1], p)
    ensures WalkedTo(fs, path + [p], start, folder, seen + {path[|path| - 1]})
  {
    assert path == path[..|path| - 1] + [path[|path| - 1]];
    assert (path + [p])[..|path + [p]| - 1] == path;
  }

  lemma WalkEnds(fs: FolderTable, path: seq<FolderId>, start: FolderId, folder: FolderId, seen: set<FolderId>)
    requires WalkedTo(fs, path, start, folder, seen)
    requires path[|path| - 1] !in seen && path[|path| - 1] != folder
    requires path[|path| - 1] !in fs || fs[path[|path| - 1]].parent == None
    ensures !Under(fs, folder, start) && !Loops(fs, start)
  {
    assert path == path[..|path| - 1] + [path[|path| - 1]];
    NoWayUp(fs, path, folder);
  }

  lemma WalkMeets(fs: FolderTable, path: seq<FolderId>, start: FolderId, folder: FolderId, seen: set<FolderId>)
    requires WalkedTo(fs, path, start, folder, seen)
    ensures path[|path| - 1] == folder ==> Under(fs, folder, start)
    ensures path[|path| - 1] in seen ==> Loops(fs, start)
  {
    assert path[|path| - 1] == folder ==> Climbs(fs, path, start, folder);
    if path[|path| - 1] in seen {
      var i :| 0 <= i < |path| - 1 && path[i] == path[|path| - 1];
      assert path[i] == path[|path| - 1];
    }
  }

  /**
    `would_create_cycle`: the upward walk with its set of visited ids. On any table it answers
    yes exactly when the folder is met on the way up or the way up runs in a circle.
   */
  method WouldCreateCycle(fs: FolderTable, folder: FolderId, newParent: FolderId) returns (r: bool)
    ensures r <==> Under(fs, folder, newParent) || Loops(fs, newParent)
  {
    hide Under, Loops;
    if folder == newParent {
      UnderSelf(fs, folder);
      return true;
    }
    var current := Some(newParent);
    var seen: set<FolderId> := {};
    ghost var path := [newParent];
    while current.Some?
      invariant current.Some? ==> WalkedTo(fs, path, newParent, folder, seen) && path[|path| - 1] == current.value
      invariant current.None? ==> !Under(fs, folder, newParent) && !Loops(fs, newParent)
      decreases current.Some?, |fs.Keys - seen|
    {
      hide WalkedTo;
      var id := current.value;
      WalkMeets(fs, path, newParent, folder, seen);
      if id == folder {
        return true;
      }
      if id in seen {
        return true;
      }
      if id !in fs {
        WalkEnds(fs, path, newParent, folder, seen);
        return false;
      }
      current := fs[id].parent;
      if current.Some? {
        WalkOn(fs, path, newParent, folder, seen, current.value);
        path := path + [current.value];
      } else {
        WalkEnds(fs, path, newParent, folder, seen);
      }
      assert fs.Keys - (seen + {id}) < fs.Keys - seen by { assert id in fs.Keys - seen; }
      FewerLeft(fs.Keys, seen, id);
      seen := seen + {id};
    }
    return false;
  }

  lemma FewerLeft(all: set<FolderId>, seen: set<FolderId>, id: FolderId)
    requires id in all && id !in seen
    ensures |all - (seen + {id})| < |all - seen|
  {
    assert all - (seen + {id}) == (all - seen) - {id};
  }

  lemma PrefixOnly(fs: FolderTable, path: seq<FolderId>, q: seq<FolderId>)
    requires path != [] && IsChain(fs, path) && q != [] && IsChain(fs, q) && q[0] == path[0]
    requires path[|path| - 1] !in fs || fs[path[|path| - 1]].parent == None
    ensures |q| <= |path| && q == path[..|q|]
  {
    if |q| > |path| {
      assert ParentIs(fs, q[|path| - 1], q[|path|]);
      OneWayUp(fs, path, q, |path| - 1);
    } else {
      forall i | 0 <= i < |q|
        ensures q[i] == path[i]
      {
        OneWayUp(fs, path, q, i);
      }
    }
  }

  /** A complete way up without the folder and without repetition rules out both reasons for yes. */
  lemma NoWayUp(fs: FolderTable, path: seq<FolderId>, folder: FolderId)
    requires path != [] && IsChain(fs, path) && folder !in path
    requires path[|path| - 1] !in fs || fs[path[|path| - 1]].parent == None
    requires forall i, j :: 0 <= i < j < |path| ==> path[i] != path[j]
    ensures !Under(fs, folder, path[0]) && !Loops(fs, path[0])
  {
    forall q: seq<FolderId> | q != [] && q[0] == path[0] && IsChain(fs, q)
      ensures |q| <= |path| && q == path[..|q|]
    {
      PrefixOnly(fs, path, q);
    }
  }

  /** On a forest the upward check agrees with the downward query: yes exactly inside the subtree. */
  lemma CycleCheckIsSubtree(fs: FolderTable, folder: FolderId, newParent: FolderId)
    requires IsForest(fs) && newParent in fs
    ensures (Under(fs, folder, newParent) || Loops(fs, newParent)) <==> newParent in Subtree(fs, folder)
  {
    var rank :| Ranked(fs, rank);
    ForestNeverLoops(fs, rank, newParent);
  }

  /** Half way down: everything above the frontier is complete, the frontier's children are not. */
  ghost predicate DownTo(fs: FolderTable, top: FolderId, ids: set<FolderId>, frontier: set<FolderId>) {
    && frontier <= ids <= fs.Keys && top in ids
    && (forall x :: x in ids ==> Under(fs, top, x) && fs[x].owner == fs[top].owner)
    && (forall x :: x in ids && x != top ==> fs[x].parent.Some? && fs[x].parent.value in ids - frontier)
    && (forall x, p :: ParentIs(fs, x, p) && p in ids - frontier ==> x in ids)
  }

  /** The next level of the recursive query: the owner's folders whose parent is in the frontier. */
  function NextLevel(fs: FolderTable, frontier: set<FolderId>, owner: OwnerId): set<FolderId> {
    set x | x in fs && fs[x].parent.Some? && fs[x].parent.value in frontier && fs[x].owner == owner
  }

  lemma LevelIsNew(fs: FolderTable, top: FolderId, ids: set<FolderId>, frontier: set<FolderId>)
    requires IsForest(fs) && DownTo(fs, top, ids, frontier)
    ensures NextLevel(fs, frontier, fs[top].owner) !! ids
    ensures forall x :: x in NextLevel(fs, frontier, fs[top].owner) ==> Under(fs, top, x)
  {
    var rank :| Ranked(fs, rank);
    forall x | x in NextLevel(fs, frontier, fs[top].owner)
      ensures Under(fs, top, x) && x !in ids
    {
      var p := fs[x].parent.value;
      assert ParentIs(fs, x, p);
      UnderStep(fs, top, x, p);
      if x == top {
        UnderRank(fs, rank, top, p);
      }
    }
  }

  lemma LevelDown(fs: FolderTable, top: FolderId, ids: set<FolderId>, frontier: set<FolderId>)
    requires IsForest(fs) && DownTo(fs, top, ids, frontier)
    ensures var next := NextLevel(fs, frontier, fs[top].owner);
      next !! ids && DownTo(fs, top, ids + next, next)
  {
    var next := NextLevel(fs, frontier, fs[top].owner);
    LevelIsNew(fs, top, ids, frontier);
    hide Under;
    forall x, p | ParentIs(fs, x, p) && p in ids
      ensures x in ids + next
    {
      assert RowOk(fs, x);
    }
  }

  /** `descendant_ids`: the recursive query, level by level. */
  method DescendantIds(fs: FolderTable, folder: FolderId, owner: OwnerId) returns (ids: set<FolderId>)
    requires IsForest(fs)
    ensures ids == if folder in fs && fs[folder].owner == owner then Subtree(fs, folder) else {}
  {
    if folder !in fs || fs[folder].owner != owner {
      return {};
    }
    hide IsForest, DownTo, Subtree, NextLevel;
    ids := {folder};
    var frontier := {folder};
    DownFrom(fs, folder);
    while frontier != {}
      invariant DownTo(fs, folder, ids, frontier)
      decreases |fs.Keys - ids|, frontier != {}
    {
      var next := NextLevel(fs, frontier, owner);
      LevelDown(fs, folder, ids, frontier);
      DownInside(fs, folder, ids + next, next);
      LessToFind(fs.Keys, ids, next);
      ids := ids + next;
      frontier := next;
    }
    SubtreeReached(fs, folder, ids);
  }

  lemma LessToFind(all: set<FolderId>, ids: set<FolderId>, next: set<FolderId>)
    requires next <= all && next !! ids
    ensures if next == {} then |all - (ids + next)| == |all - ids| else |all - (ids + next)| < |all - ids|
  {
    assert all - (ids + next) == all - ids - next;
  }

  lemma DownFrom(fs: FolderTable, top: FolderId)
    requires top in fs
    ensures DownTo(fs, top, {top}, {top})
  {
    UnderSelf(fs, top);
  }

  lemma DownInside(fs: FolderTable, top: FolderId, ids: set<FolderId>, frontier: set<FolderId>)
    requires DownTo(fs, top, ids, frontier)
    ensures frontier <= ids <= fs.Keys
  {
  }

  lemma SubtreeReached(fs: FolderTable, top: FolderId, ids: set<FolderId>)
    requires IsForest(fs) && DownTo(fs, top, ids, {})
    ensures ids == Subtree(fs, top)
  {
    var rank :| Ranked(fs, rank);
    forall x | x in fs && Under(fs, top, x)
      ensures x in ids
    {
      ClosedDown(fs, rank, top, ids, x);
    }
  }

  lemma {:induction false} ClosedDown(
    fs: FolderTable, rank: FolderId -> nat, top: FolderId, ids: set<FolderId>, x: FolderId)
    requires Ranked(fs, rank) && top in ids && Under(fs, top, x)
    requires forall y, p :: ParentIs(fs, y, p) && p in ids ==> y in ids
    ensures x in ids
    decreases rank(x)
  {
    if x != top {
      UnderHasParent(fs, top, x);
      var p := fs[x].parent.value;
      assert ParentIs(fs, x, p);
      ClosedDown(fs, rank, top, ids, p);
    }
  }
}
