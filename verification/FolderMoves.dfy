/** What a move does to the listed sizes of all folders: the moved folder's size
    leaves the folders above its old place and comes to those above its new one. */
module FolderMoves {
  import opened Options
  import opened Totals
  import opened Tables
  import opened Folders
  import opened FolderTree
  import opened FolderSizes

  /** A climb that does not pass through f is there after f has moved. */
  lemma {:induction false} ClimbKept(folders: FolderMap, f: FolderId, parent: Option<FolderId>, x: FolderId,
                                     g: FolderId, n: nat)
    requires f in folders && Reaches(folders, x, g, n) && forall k: nat :: k < n ==> !Reaches(folders, x, f, k)
    ensures Reaches(WithParent(folders, f, parent), x, g, n)
    decreases n
  {
    if n > 0 {
      var up := folders[x].parent.value;
      assert !Reaches(folders, x, f, 0);
      forall k: nat | k < n - 1
        ensures !Reaches(folders, up, f, k)
      {
        assert !Reaches(folders, x, f, k + 1);
      }
      ClimbKept(folders, f, parent, up, g, n - 1);
    }
  }

  lemma OutsideStaysOneWay(folders: FolderMap, f: FolderId, parent: Option<FolderId>, x: FolderId, g: FolderId)
    requires f in folders && !Under(folders, x, f) && Under(folders, x, g)
    ensures Under(WithParent(folders, f, parent), x, g)
  {
    var n: nat :| Reaches(folders, x, g, n);
    ClimbKept(folders, f, parent, x, g, n);
  }

  lemma InsideStaysOneWay(folders: FolderMap, f: FolderId, parent: Option<FolderId>, x: FolderId, g: FolderId)
    requires f in folders && Acyclic(folders) && Under(folders, g, f) && g != f && Under(folders, x, g)
    ensures Under(WithParent(folders, f, parent), x, g)
  {
    var n: nat :| Reaches(folders, x, g, n);
    if k: nat :| k < n && Reaches(folders, x, f, k) {
      ClimbOn(folders, x, f, g, k, n);
      NoLoop(folders, f, g);
      assert false;
    }
    ClimbKept(folders, f, parent, x, g, n);
  }

  /** A folder that is not below f, or lies above none but folders below f, has the same
      ancestors and descendants as before. */
  lemma StaysUnder(folders: FolderMap, f: FolderId, parent: Option<FolderId>, x: FolderId, g: FolderId)
    requires f in folders && OwnersOk(folders) && OwnersOk(WithParent(folders, f, parent))
    requires Acyclic(folders) && Acyclic(WithParent(folders, f, parent))
    requires !Under(folders, x, f) || (Under(folders, g, f) && g != f)
    ensures Under(WithParent(folders, f, parent), x, g) <==> Under(folders, x, g)
  {
    var moved := WithParent(folders, f, parent);
    assert WithParent(moved, f, folders[f].parent) == folders;
    SubtreeMovesAlong(folders, f, parent, x);
    SubtreeMovesAlong(folders, f, parent, g);
    if !Under(folders, x, f) {
      if Under(folders, x, g) { OutsideStaysOneWay(folders, f, parent, x, g); }
      if Under(moved, x, g) { OutsideStaysOneWay(moved, f, folders[f].parent, x, g); }
    } else {
      if Under(folders, x, g) { InsideStaysOneWay(folders, f, parent, x, g); }
      if Under(moved, x, g) { InsideStaysOneWay(moved, f, folders[f].parent, x, g); }
    }
  }

  /** What is below f is below the folders that f is below, and no others outside. */
  lemma FollowsTop(folders: FolderMap, f: FolderId, x: FolderId, g: FolderId)
    requires f in folders && Under(folders, x, f) && !(Under(folders, g, f) && g != f)
    ensures Under(folders, x, g) <==> Under(folders, f, g)
  {
    var m: nat :| Reaches(folders, x, f, m);
    if Under(folders, x, g) {
      var n: nat :| Reaches(folders, x, g, n);
      if m <= n {
        ClimbOn(folders, x, f, g, m, n);
      } else {
        ClimbOn(folders, x, g, f, n, m);
        UnderItself(folders, f);
      }
    }
    if Under(folders, f, g) {
      var n: nat :| Reaches(folders, f, g, n);
      ClimbJoin(folders, x, f, g, m, n);
    }
  }

  /** The active files below g that are not below f. */
  ghost function FilesBeside(folders: FolderMap, files: FileMap, user: UserId, f: FolderId,
                             g: FolderId): map<FileId, int> {
    map x | x in files && IsActiveOf(files[x], user) && files[x].parent.Some?
      && Under(folders, files[x].parent.value, g) && !Under(folders, files[x].parent.value, f)
      :: files[x].size
  }

  lemma SizeBesideAndBelow(folders: FolderMap, files: FileMap, user: UserId, f: FolderId, g: FolderId)
    requires f in folders && !(Under(folders, g, f) && g != f)
    ensures SubtreeSize(folders, files, user, g)
         == Total(FilesBeside(folders, files, user, f, g))
            + (if Under(folders, f, g) then SubtreeSize(folders, files, user, f) else 0)
  {
    var beside, below := FilesBeside(folders, files, user, f, g), FilesUnder(folders, files, user, f);
    forall x | Under(folders, x, f)
      ensures Under(folders, x, g) <==> Under(folders, f, g)
    {
      FollowsTop(folders, f, x, g);
    }
    if Under(folders, f, g) {
      assert FilesUnder(folders, files, user, g) == beside + below;
      TotalUnion(beside, below);
    } else {
      assert FilesUnder(folders, files, user, g) == beside;
    }
  }

  lemma BesideStays(folders: FolderMap, files: FileMap, user: UserId, f: FolderId, parent: Option<FolderId>,
                    g: FolderId)
    requires f in folders && OwnersOk(folders) && OwnersOk(WithParent(folders, f, parent))
    requires Acyclic(folders) && Acyclic(WithParent(folders, f, parent))
    ensures FilesBeside(WithParent(folders, f, parent), files, user, f, g) == FilesBeside(folders, files, user, f, g)
  {
    var moved := WithParent(folders, f, parent);
    forall x
      ensures Under(moved, x, f) <==> Under(folders, x, f)
      ensures !Under(folders, x, f) ==> (Under(moved, x, g) <==> Under(folders, x, g))
    {
      SubtreeMovesAlong(folders, f, parent, x);
      if !Under(folders, x, f) {
        StaysUnder(folders, f, parent, x, g);
      }
    }
  }

  lemma InnerSizesStay(folders: FolderMap, files: FileMap, user: UserId, f: FolderId, parent: Option<FolderId>,
                       g: FolderId)
    requires f in folders && OwnersOk(folders) && OwnersOk(WithParent(folders, f, parent))
    requires Acyclic(folders) && Acyclic(WithParent(folders, f, parent)) && Under(folders, g, f) && g != f
    ensures FilesUnder(WithParent(folders, f, parent), files, user, g) == FilesUnder(folders, files, user, g)
    ensures !Under(folders, f, g) && !Under(WithParent(folders, f, parent), f, g)
  {
    var moved := WithParent(folders, f, parent);
    forall x
      ensures Under(moved, x, g) <==> Under(folders, x, g)
    {
      StaysUnder(folders, f, parent, x, g);
    }
    if Under(folders, f, g) {
      NoLoop(folders, f, g);
    }
  }

  lemma SizesShift(folders: FolderMap, files: FileMap, user: UserId, f: FolderId, parent: Option<FolderId>, g: FolderId)
    requires f in folders && OwnersOk(folders) && OwnersOk(WithParent(folders, f, parent))
    requires Acyclic(folders) && Acyclic(WithParent(folders, f, parent))
    ensures var moved, size := WithParent(folders, f, parent), SubtreeSize(folders, files, user, f);
            SubtreeSize(moved, files, user, g)
            == SubtreeSize(folders, files, user, g)
               - (if Under(folders, f, g) then size else 0) + (if Under(moved, f, g) then size else 0)
  {
    if Under(folders, g, f) && g != f {
      InnerSizesStay(folders, files, user, f, parent, g);
    } else {
      SubtreeMovesAlong(folders, f, parent, g);
      SubtreeSizeMovesAlong(folders, files, user, f, parent);
      BesideStays(folders, files, user, f, parent, g);
      SizeBesideAndBelow(folders, files, user, f, g);
      SizeBesideAndBelow(WithParent(folders, f, parent), files, user, f, g);
    }
  }

  /** Above the moved folder, itself aside, are its new parent and the folders above it. */
  lemma AboveAfterMove(folders: FolderMap, f: FolderId, parent: Option<FolderId>, g: FolderId)
    requires f in folders && g != f && OwnersOk(folders) && OwnersOk(WithParent(folders, f, parent))
    requires Acyclic(folders) && Acyclic(WithParent(folders, f, parent))
    requires parent.Some? ==> !Under(folders, parent.value, f)
    ensures Under(WithParent(folders, f, parent), f, g) <==> parent.Some? && Under(folders, parent.value, g)
  {
    var moved := WithParent(folders, f, parent);
    ReachesStep(moved, f, g);
    if parent.Some? {
      StaysUnder(folders, f, parent, parent.value, g);
    }
  }

  /** Main result: an accepted move takes the folder's size from every folder that was
      above its old place, gives it to every folder above its new one, and leaves all
      other sizes, its own and its subfolders' among them, as they were. */
  lemma MoveShiftsSizes(t: Tree, user: UserId, f: FolderId, parent: Option<FolderId>, g: FolderId)
    requires TreeOk(t) && Relocate(t, user, f, parent).Ok? && g != f
    ensures var t', size := Relocate(t, user, f, parent).value, SubtreeSize(t.db.folders, t.db.files, user, f);
            var lost := Under(t.db.folders, f, g);
            var gained := parent.Some? && Under(t.db.folders, parent.value, g);
            SubtreeSize(t'.db.folders, t'.db.files, user, g)
            == SubtreeSize(t.db.folders, t.db.files, user, g)
               - (if lost then size else 0) + (if gained then size else 0)
  {
    RelocateKeeps(t, user, f, parent);
    SizesShift(t.db.folders, t.db.files, user, f, parent, g);
    AboveAfterMove(t.db.folders, f, parent, g);
  }
}
