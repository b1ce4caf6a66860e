/** The folder forest of internal/file: what the folder table keeps, and when a
    move would make a cycle. */
module Folders {
  import opened Options
  import opened Tables

  type FolderMap = map<FolderId, FolderRow>

  // ---- climbing ----

  /** From x, n parents up, is f. */
  predicate Reaches(folders: FolderMap, x: FolderId, f: FolderId, n: nat)
    decreases n
  {
    x in folders
    && if n == 0 then x == f else folders[x].parent.Some? && Reaches(folders, folders[x].parent.value, f, n - 1)
  }

  /** x is f or one of its descendants. */
  ghost predicate Under(folders: FolderMap, x: FolderId, f: FolderId) {
    exists n: nat :: Reaches(folders, x, f, n)
  }

  /** No parent dangles or belongs to someone else. */
  predicate OwnersOk(folders: FolderMap) {
    forall x :: x in folders && folders[x].parent.Some? ==>
      folders[x].parent.value in folders && folders[folders[x].parent.value].owner == folders[x].owner
  }

  /** Every folder is deeper than its parent. */
  predicate DepthOk(folders: FolderMap, depth: map<FolderId, nat>) {
    forall x :: x in folders ==>
      x in depth && (folders[x].parent.Some? ==>
            folders[x].parent.value in depth && depth[folders[x].parent.value] < depth[x])
  }

  ghost predicate Acyclic(folders: FolderMap) {
    exists depth :: DepthOk(folders, depth)
  }

  predicate SameParent(a: FolderRow, b: FolderRow) {
    a.owner == b.owner && a.parent == b.parent
  }

  /** The unique index on owner, parent and name. */
  predicate NamesOk(folders: FolderMap) {
    forall a, b :: a in folders && b in folders && a != b && SameParent(folders[a], folders[b]) ==>
        folders[a].name != folders[b].name
  }

  /** Every file, trashed ones included, has an existing folder of its owner. */
  predicate FilesPlaced(folders: FolderMap, files: map<FileId, FileRow>) {
    forall f :: f in files && files[f].parent.Some? ==>
      files[f].parent.value in folders && folders[files[f].parent.value].owner == files[f].owner
  }

  ghost predicate FoldersOk(folders: FolderMap, nextFolder: FolderId) {
    && OwnersOk(folders) && Acyclic(folders) && NamesOk(folders)
    && (forall x :: x in folders ==> x < nextFolder)
  }

  lemma ReachesStep(folders: FolderMap, x: FolderId, f: FolderId)
    requires x in folders && x != f
    ensures Under(folders, x, f) <==> folders[x].parent.Some? && Under(folders, folders[x].parent.value, f)
  {
    if Under(folders, x, f) {
      var n: nat :| Reaches(folders, x, f, n);
      assert Reaches(folders, folders[x].parent.value, f, n - 1);
    }
    if folders[x].parent.Some? && Under(folders, folders[x].parent.value, f) {
      var n: nat :| Reaches(folders, folders[x].parent.value, f, n);
      assert Reaches(folders, x, f, n + 1);
    }
  }

  lemma UnderItself(folders: FolderMap, f: FolderId)
    requires f in folders
    ensures Under(folders, f, f)
  {
    assert Reaches(folders, f, f, 0);
  }

  /** Climbing goes strictly up. */
  lemma {:induction false} ClimbDepth(folders: FolderMap, depth: map<FolderId, nat>, x: FolderId, f: FolderId, n: nat)
    requires DepthOk(folders, depth) && Reaches(folders, x, f, n)
    ensures f in folders && depth[f] + n <= depth[x]
    decreases n
  {
    if n > 0 {
      ClimbDepth(folders, depth, folders[x].parent.value, f, n - 1);
    }
  }

  /** It stays with one owner. */
  lemma {:induction false} ClimbOwner(folders: FolderMap, x: FolderId, f: FolderId, n: nat)
    requires OwnersOk(folders) && Reaches(folders, x, f, n)
    ensures f in folders && folders[f].owner == folders[x].owner
    decreases n
  {
    if n > 0 {
      ClimbOwner(folders, folders[x].parent.value, f, n - 1);
    }
  }

  /** Two climbs from one folder: the shorter leads onto the longer. */
  lemma {:induction false} ClimbOn(folders: FolderMap, x: FolderId, a: FolderId, b: FolderId, m: nat, n: nat)
    requires Reaches(folders, x, a, m) && Reaches(folders, x, b, n) && m <= n
    ensures Reaches(folders, a, b, n - m)
    decreases m
  {
    if m > 0 {
      ClimbOn(folders, folders[x].parent.value, a, b, m - 1, n - 1);
    }
  }

  lemma {:induction false} ClimbJoin(folders: FolderMap, x: FolderId, y: FolderId, z: FolderId, m: nat, n: nat)
    requires Reaches(folders, x, y, m) && Reaches(folders, y, z, n)
    ensures Reaches(folders, x, z, m + n)
    decreases m
  {
    if m > 0 {
      ClimbJoin(folders, folders[x].parent.value, y, z, m - 1, n);
    }
  }

  /** A folder is below no descendant of its own. */
  lemma NoLoop(folders: FolderMap, x: FolderId, y: FolderId)
    requires Acyclic(folders) && Under(folders, x, y) && Under(folders, y, x)
    ensures x == y
  {
    var depth :| DepthOk(folders, depth);
    var m: nat :| Reaches(folders, x, y, m);
    var n: nat :| Reaches(folders, y, x, n);
    ClimbDepth(folders, depth, x, y, m);
    ClimbDepth(folders, depth, y, x, n);
  }

  // ---- the writes ----

  function WithParent(folders: FolderMap, f: FolderId, parent: Option<FolderId>): FolderMap
    requires f in folders
  {
    folders[f := folders[f].(parent := parent)]
  }

  /** Below f nothing changes when f moves. */
  lemma {:induction false} ReachesMoved(folders: FolderMap, f: FolderId, parent: Option<FolderId>, x: FolderId, n: nat)
    requires f in folders && OwnersOk(folders) && Reaches(folders, x, f, n)
    requires forall k: nat :: k < n ==> !Reaches(folders, x, f, k)
    ensures Reaches(WithParent(folders, f, parent), x, f, n)
    decreases n
  {
    if n > 0 {
      var up := folders[x].parent.value;
      assert !Reaches(folders, x, f, 0);
      forall k: nat | k < n - 1
        ensures !Reaches(folders, up, f, k)
      {
        assert !Reaches(folders, x, f, k + 1);
      }
      ReachesMoved(folders, f, parent, up, n - 1);
    }
  }

  lemma {:induction false} FirstReach(folders: FolderMap, x: FolderId, f: FolderId, n: nat) returns (m: nat)
    requires Reaches(folders, x, f, n)
    ensures m <= n && Reaches(folders, x, f, m) && forall k: nat :: k < m ==> !Reaches(folders, x, f, k)
    decreases n
  {
    m := n;
    if k: nat :| k < n && Reaches(folders, x, f, k) {
      m := FirstReach(folders, x, f, k);
    }
  }

  /** A folder keeps its descendants, all of them and no others, when it moves. */
  lemma SubtreeMovesAlong(folders: FolderMap, f: FolderId, parent: Option<FolderId>, x: FolderId)
    requires f in folders && OwnersOk(folders) && OwnersOk(WithParent(folders, f, parent))
    ensures Under(WithParent(folders, f, parent), x, f) <==> Under(folders, x, f)
  {
    var moved := WithParent(folders, f, parent);
    if Under(folders, x, f) {
      var n: nat :| Reaches(folders, x, f, n);
      var m := FirstReach(folders, x, f, n);
      ReachesMoved(folders, f, parent, x, m);
    }
    if Under(moved, x, f) {
      var n: nat :| Reaches(moved, x, f, n);
      var m := FirstReach(moved, x, f, n);
      ReachesMoved(moved, f, folders[f].parent, x, m);
      assert WithParent(moved, f, folders[f].parent) == folders;
    }
  }

  ghost function MovedDepth(folders: FolderMap, depth: map<FolderId, nat>, f: FolderId, parent: Option<FolderId>,
                            x: FolderId): int
    requires DepthOk(folders, depth) && f in folders && x in folders && (parent.Some? ==> parent.value in folders)
  {
    var to: int := if parent.Some? then depth[parent.value] + 1 else 0;
    if Under(folders, x, f) then depth[x] as int - depth[f] + to else depth[x]
  }

  lemma MoveKeepsAcyclic(folders: FolderMap, f: FolderId, parent: Option<FolderId>)
    requires OwnersOk(folders) && Acyclic(folders) && f in folders
    requires parent.Some? ==> parent.value in folders && !Under(folders, parent.value, f)
    ensures Acyclic(WithParent(folders, f, parent))
  {
    var depth :| DepthOk(folders, depth);
    UnderItself(folders, f);
    forall x | x in folders
      ensures 0 <= MovedDepth(folders, depth, f, parent, x)
      ensures x != f && folders[x].parent.Some? ==>
                MovedDepth(folders, depth, f, parent, folders[x].parent.value)
                < MovedDepth(folders, depth, f, parent, x)
    {
      if Under(folders, x, f) {
        var n: nat :| Reaches(folders, x, f, n);
        ClimbDepth(folders, depth, x, f, n);
      }
      if x != f {
        ReachesStep(folders, x, f);
      }
    }
    var depth': map<FolderId, nat> := map x | x in folders :: MovedDepth(folders, depth, f, parent, x);
    assert DepthOk(WithParent(folders, f, parent), depth');
  }

  /** The UPDATE alone keeps the forest exactly when, at that moment, the new
      parent is not the folder or one of its descendants. */
  lemma MoveKeepsForestIff(folders: FolderMap, f: FolderId, parent: Option<FolderId>)
    requires OwnersOk(folders) && Acyclic(folders) && f in folders && (parent.Some? ==> parent.value in folders)
    ensures Acyclic(WithParent(folders, f, parent)) <==> (parent.Some? ==> !Under(folders, parent.value, f))
  {
    if parent.Some? && Under(folders, parent.value, f) {
      var moved := WithParent(folders, f, parent);
      if Acyclic(moved) {
        var depth :| DepthOk(moved, depth);
        var n: nat :| Reaches(folders, parent.value, f, n);
        var m := FirstReach(folders, parent.value, f, n);
        ReachesMoved(folders, f, parent, parent.value, m);
        ClimbDepth(moved, depth, parent.value, f, m);
        assert false;
      }
    } else {
      MoveKeepsAcyclic(folders, f, parent);
    }
  }

  /** Checks and writes are separate statements: two moves that have both passed
      their checks can still put each folder into the other. */
  lemma TwoMovesCanMeet() returns (folders: FolderMap, a: FolderId, b: FolderId)
    ensures FoldersOk(folders, 3) && a in folders && b in folders
    ensures !Under(folders, b, a) && !Under(folders, a, b)
    ensures !Acyclic(WithParent(WithParent(folders, a, Some(b)), b, Some(a)))
  {
    a, b := 1, 2;
    folders := map[1 := FolderRow(1, None, "a"), 2 := FolderRow(1, None, "b")];
    var depth: map<FolderId, nat> := map[1 := 0, 2 := 0];
    assert DepthOk(folders, depth);
    forall n: nat
      ensures !Reaches(folders, b, a, n) && !Reaches(folders, a, b, n)
    {
    }
    var once := WithParent(folders, a, Some(b));
    MoveKeepsForestIff(folders, a, Some(b));
    assert Reaches(once, a, b, 1) by { assert Reaches(once, b, b, 0); }
    MoveKeepsForestIff(once, b, Some(a));
  }
}
