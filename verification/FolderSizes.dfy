/** The recursive query of ListFolders (internal/file/repository.go): it reaches
    every folder of a subtree once, and its sums add up to what is stored. */
module FolderSizes {
  import opened Options
  import opened Totals
  import opened Tables
  import opened Folders
  import opened FolderTree

  type FileMap = map<FileId, FileRow>

  predicate IsActiveOf(row: FileRow, user: UserId) {
    row.owner == user && row.status == Active
  }

  /** The files the LEFT JOIN finds for one folder, as far as they count. */
  function FilesIn(files: FileMap, user: UserId, folder: FolderId): map<FileId, int> {
    map f | f in files && IsActiveOf(files[f], user) && files[f].parent == Some(folder) :: files[f].size
  }

  /** The active files in or below a folder. */
  ghost function FilesUnder(folders: FolderMap, files: FileMap, user: UserId, folder: FolderId): map<FileId, int> {
    map f | f in files && IsActiveOf(files[f], user) && files[f].parent.Some?
      && Under(folders, files[f].parent.value, folder)
      :: files[f].size
  }

  /** What a folder's listed size should be. */
  ghost function SubtreeSize(folders: FolderMap, files: FileMap, user: UserId, folder: FolderId): int {
    Total(FilesUnder(folders, files, user, folder))
  }

  // ---- the query ----

  /** A row of descendant_folders. */
  datatype Row = Row(root: FolderId, id: FolderId)

  ghost function Pairs(folders: FolderMap, listed: set<FolderId>): set<Row> {
    set r, x | r in listed && x in folders :: Row(r, x)
  }

  predicate Distinct(rows: seq<Row>) {
    forall i, j :: 0 <= i < j < |rows| ==> rows[i] != rows[j]
  }

  /** Every row is a listed folder with itself or a folder below it. */
  ghost predicate RowsSound(folders: FolderMap, listed: set<FolderId>, rows: seq<Row>) {
    forall k :: 0 <= k < |rows| ==>
        rows[k].root in listed && rows[k].id in folders && Under(folders, rows[k].id, rows[k].root)
  }

  /** A row is a start row or was joined from one of the first done rows. */
  predicate RowsJoined(folders: FolderMap, rows: seq<Row>, done: nat) {
    forall k :: 0 <= k < |rows| ==>
      rows[k].id == rows[k].root
      || (rows[k].id in folders && folders[rows[k].id].parent.Some?
          && exists j :: 0 <= j < done && j < |rows| && rows[j] == Row(rows[k].root, folders[rows[k].id].parent.value))
  }

  /** The first done rows have been joined with all their children. */
  predicate RowsExpanded(folders: FolderMap, user: UserId, rows: seq<Row>, done: nat) {
    forall k, c :: 0 <= k < done && k < |rows| && c in Siblings(folders, user, Some(rows[k].id)) ==>
        Row(rows[k].root, c) in rows
  }

  lemma DistinctCount(rows: seq<Row>, all: set<Row>)
    requires Distinct(rows) && forall k :: 0 <= k < |rows| ==> rows[k] in all
    ensures |rows| <= |all|
    decreases |rows|
  {
    if rows != [] {
      var last := rows[|rows| - 1];
      DistinctCount(rows[..|rows| - 1], all - {last});
    }
  }

  /** Nothing above a listed folder is one of its rows. */
  lemma ChildIsNew(folders: FolderMap, listed: set<FolderId>, rows: seq<Row>, done: nat, c: FolderId)
    requires OwnersOk(folders) && Acyclic(folders) && RowsSound(folders, listed, rows) && Distinct(rows)
    requires done < |rows| && RowsJoined(folders, rows, done)
    requires c in folders && folders[c].parent == Some(rows[done].id)
    ensures Row(rows[done].root, c) !in rows
  {
    var root := rows[done].root;
    if Row(root, c) in rows {
      if c == root {
        assert Under(folders, c, rows[done].id) by {
          UnderItself(folders, rows[done].id);
          ReachesOne(folders, c);
        }
        NoLoop(folders, c, rows[done].id);
        NotOwnParent(folders, c);
        assert false;
      }
    }
  }

  lemma ReachesOne(folders: FolderMap, c: FolderId)
    requires c in folders && folders[c].parent.Some? && folders[c].parent.value in folders
    ensures Under(folders, c, folders[c].parent.value)
  {
    assert Reaches(folders, folders[c].parent.value, folders[c].parent.value, 0);
    assert Reaches(folders, c, folders[c].parent.value, 1);
  }

  lemma NotOwnParent(folders: FolderMap, c: FolderId)
    requires Acyclic(folders) && c in folders
    ensures folders[c].parent != Some(c)
  {
    var depth :| DepthOk(folders, depth);
  }

  /** One row joined with its children. */
  method Join(folders: FolderMap, user: UserId, row: Row) returns (more: seq<Row>)
    ensures Distinct(more)
    ensures forall k :: 0 <= k < |more| ==>
              more[k].root == row.root && more[k].id in Siblings(folders, user, Some(row.id))
    ensures forall c :: c in Siblings(folders, user, Some(row.id)) ==> Row(row.root, c) in more
  {
    var children := Siblings(folders, user, Some(row.id));
    var left := children;
    more := [];
    while left != {}
      invariant left <= children && Distinct(more)
      invariant forall k :: 0 <= k < |more| ==> more[k].root == row.root && more[k].id in children - left
      invariant forall c :: c in children - left ==> Row(row.root, c) in more
    {
      var c :| c in left;
      left := left - {c};
      more := more + [Row(row.root, c)];
    }
  }

  /** The start rows: every listed folder with itself. */
  method StartRows(listed: set<FolderId>) returns (rows: seq<Row>)
    ensures Distinct(rows)
    ensures forall k :: 0 <= k < |rows| ==> rows[k].id == rows[k].root && rows[k].root in listed
    ensures forall r :: r in listed ==> Row(r, r) in rows
  {
    var left := listed;
    rows := [];
    while left != {}
      invariant left <= listed && Distinct(rows)
      invariant forall k :: 0 <= k < |rows| ==> rows[k].id == rows[k].root && rows[k].root in listed - left
      invariant forall r :: r in listed - left ==> Row(r, r) in rows
    {
      var r :| r in left;
      left := left - {r};
      rows := rows + [Row(r, r)];
    }
  }

  lemma {:induction false} RowsComplete(folders: FolderMap, user: UserId, rows: seq<Row>, r: FolderId, x: FolderId,
                                        n: nat)
    requires OwnersOk(folders) && r in folders && folders[r].owner == user && Reaches(folders, x, r, n)
    requires Row(r, r) in rows && RowsExpanded(folders, user, rows, |rows|)
    ensures Row(r, x) in rows
    decreases n
  {
    if n > 0 {
      var up := folders[x].parent.value;
      RowsComplete(folders, user, rows, r, up, n - 1);
      ClimbOwner(folders, x, r, n);
      var k :| 0 <= k < |rows| && rows[k] == Row(r, up);
      assert x in Siblings(folders, user, Some(rows[k].id));
    }
  }

  /** The rows of descendant_folders are exactly the pairs of a listed folder and a
      folder in its subtree, each once; UNION ALL would not end on a cycle. */
  ghost predicate ExactRows(folders: FolderMap, listed: set<FolderId>, rows: seq<Row>) {
    && Distinct(rows)
    && forall r, x :: Row(r, x) in rows <==> r in listed && Under(folders, x, r)
  }

  lemma JoinKeeps(folders: FolderMap, user: UserId, listed: set<FolderId>, rows: seq<Row>, done: nat, more: seq<Row>)
    requires OwnersOk(folders) && Acyclic(folders) && RowsSound(folders, listed, rows) && Distinct(rows)
    requires done < |rows| && RowsJoined(folders, rows, done) && RowsExpanded(folders, user, rows, done)
    requires Distinct(more)
    requires forall k :: 0 <= k < |more| ==>
               more[k].root == rows[done].root && more[k].id in Siblings(folders, user, Some(rows[done].id))
    requires forall c :: c in Siblings(folders, user, Some(rows[done].id)) ==> Row(rows[done].root, c) in more
    ensures RowsSound(folders, listed, rows + more) && Distinct(rows + more)
    ensures RowsJoined(folders, rows + more, done + 1) && RowsExpanded(folders, user, rows + more, done + 1)
  {
    forall k | 0 <= k < |more|
      ensures more[k] !in rows && more[k].id in folders && Under(folders, more[k].id, more[k].root)
    {
      ChildIsNew(folders, listed, rows, done, more[k].id);
      assert more[k] == Row(rows[done].root, more[k].id);
      var n: nat :| Reaches(folders, rows[done].id, rows[done].root, n);
      assert Reaches(folders, more[k].id, more[k].root, n + 1);
    }
    assert forall k :: 0 <= k < |more| ==> (rows + more)[|rows| + k] == more[k];
    assert (rows + more)[done] == rows[done];
    forall k | 0 <= k < |rows| && rows[k].id != rows[k].root
      ensures exists j :: 0 <= j < done + 1 && (rows + more)[j] == Row(rows[k].root, folders[rows[k].id].parent.value)
    {
      var j :| 0 <= j < done && j < |rows| && rows[j] == Row(rows[k].root, folders[rows[k].id].parent.value);
      assert (rows + more)[j] == rows[j];
    }
  }

  /** The query's rows are exactly the pairs of a listed folder and a folder of its
      subtree, each of them once, and it ends, because the table is a forest. */
  method Descendants(folders: FolderMap, user: UserId, listed: set<FolderId>) returns (rows: seq<Row>)
    requires OwnersOk(folders) && Acyclic(folders)
    requires forall r :: r in listed ==> Owns(folders, user, r)
    ensures ExactRows(folders, listed, rows)
  {
    rows := StartRows(listed);
    var done := 0;
    forall r | r in listed
      ensures Under(folders, r, r)
    {
      UnderItself(folders, r);
    }
    ghost var all := Pairs(folders, listed);
    while done < |rows|
      invariant done <= |rows| && RowsSound(folders, listed, rows) && Distinct(rows)
      invariant RowsJoined(folders, rows, done) && RowsExpanded(folders, user, rows, done)
      invariant forall r :: r in listed ==> Row(r, r) in rows
      decreases |all| - done
    {
      forall k | 0 <= k < |rows|
        ensures rows[k] in all
      {
        assert rows[k] == Row(rows[k].root, rows[k].id);
      }
      DistinctCount(rows, all);
      var more := Join(folders, user, rows[done]);
      JoinKeeps(folders, user, listed, rows, done, more);
      rows := rows + more;
      done := done + 1;
    }
    RowsAreExact(folders, user, listed, rows);
  }

  lemma RowsAreExact(folders: FolderMap, user: UserId, listed: set<FolderId>, rows: seq<Row>)
    requires OwnersOk(folders) && Distinct(rows) && RowsSound(folders, listed, rows)
    requires RowsExpanded(folders, user, rows, |rows|)
    requires forall r :: r in listed ==> Owns(folders, user, r) && Row(r, r) in rows
    ensures ExactRows(folders, listed, rows)
  {
    forall r, x | r in listed && Under(folders, x, r)
      ensures Row(r, x) in rows
    {
      var n: nat :| Reaches(folders, x, r, n);
      RowsComplete(folders, user, rows, r, x, n);
    }
  }

  // ---- the sums ----

  /** The files joined by the first rows of one listed folder. */
  function Joined(files: FileMap, user: UserId, rows: seq<Row>, r: FolderId): map<FileId, int> {
    map f | f in files && IsActiveOf(files[f], user) && files[f].parent.Some?
      && Row(r, files[f].parent.value) in rows :: files[f].size
  }

  lemma JoinedOne(files: FileMap, user: UserId, rows: seq<Row>, row: Row, r: FolderId)
    requires row !in rows
    ensures Total(Joined(files, user, rows + [row], r))
         == Total(Joined(files, user, rows, r)) + (if row.root == r then Total(FilesIn(files, user, row.id)) else 0)
  {
    var before, after := Joined(files, user, rows, r), Joined(files, user, rows + [row], r);
    if row.root == r {
      var added := FilesIn(files, user, row.id);
      forall f | f in added
        ensures f !in before
      {
        assert row == Row(r, files[f].parent.value);
      }
      assert after == before + added;
      TotalUnion(before, added);
    } else {
      assert after == before;
    }
  }

  lemma ExactRowsGiveSubtrees(folders: FolderMap, files: FileMap, user: UserId, listed: set<FolderId>, rows: seq<Row>,
                              r: FolderId)
    requires ExactRows(folders, listed, rows) && r in listed
    ensures Joined(files, user, rows, r) == FilesUnder(folders, files, user, r)
  {
  }

  /** The listed sizes: for every folder of the listing the sum of the active files
      in or below it. */
  method ListFolders(folders: FolderMap, files: FileMap, user: UserId, parent: Option<FolderId>)
    returns (sizes: map<FolderId, int>)
    requires OwnersOk(folders) && Acyclic(folders)
    ensures sizes.Keys == Siblings(folders, user, parent)
    ensures forall r :: r in sizes ==> sizes[r] == SubtreeSize(folders, files, user, r)
  {
    var listed := Siblings(folders, user, parent);
    var rows := Descendants(folders, user, listed);
    sizes := map r | r in listed :: 0;
    var k := 0;
    while k < |rows|
      invariant 0 <= k <= |rows| && sizes.Keys == listed && SizesSoFar(files, user, rows[..k], sizes)
    {
      var row := rows[k];
      assert row in rows && row == Row(row.root, row.id);
      var own := Sum(FilesIn(files, user, row.id));
      assert rows[..k + 1] == rows[..k] + [row];
      AddRow(files, user, rows[..k], row, sizes, own);
      sizes := sizes[row.root := sizes[row.root] + own];
      k := k + 1;
    }
    assert rows[..k] == rows;
    forall r | r in listed
      ensures sizes[r] == SubtreeSize(folders, files, user, r)
    {
      ExactRowsGiveSubtrees(folders, files, user, listed, rows, r);
    }
  }

  ghost predicate SizesSoFar(files: FileMap, user: UserId, rows: seq<Row>, sizes: map<FolderId, int>) {
    forall r :: r in sizes ==> sizes[r] == Total(Joined(files, user, rows, r))
  }

  lemma AddRow(files: FileMap, user: UserId, rows: seq<Row>, row: Row, sizes: map<FolderId, int>, own: int)
    requires SizesSoFar(files, user, rows, sizes) && row !in rows && row.root in sizes
    requires own == Total(FilesIn(files, user, row.id))
    ensures SizesSoFar(files, user, rows + [row], sizes[row.root := sizes[row.root] + own])
  {
    var sizes' := sizes[row.root := sizes[row.root] + own];
    forall r | r in sizes'
      ensures sizes'[r] == Total(Joined(files, user, rows + [row], r))
    {
      JoinedOne(files, user, rows, row, r);
    }
  }

  // ---- what the sums add up to ----

  /** No folder is below two folders with the same parent. */
  lemma SiblingsApart(folders: FolderMap, x: FolderId, a: FolderId, b: FolderId)
    requires OwnersOk(folders) && Acyclic(folders) && Under(folders, x, a) && Under(folders, x, b)
    requires a in folders && b in folders && folders[a].parent == folders[b].parent
    ensures a == b
  {
    var m: nat :| Reaches(folders, x, a, m);
    var n: nat :| Reaches(folders, x, b, n);
    if m <= n {
      ClimbOn(folders, x, a, b, m, n);
      NotBelowSibling(folders, a, b, n - m);
    } else {
      ClimbOn(folders, x, b, a, n, m);
      NotBelowSibling(folders, b, a, m - n);
    }
  }

  lemma NotBelowSibling(folders: FolderMap, a: FolderId, b: FolderId, n: nat)
    requires OwnersOk(folders) && Acyclic(folders) && Reaches(folders, a, b, n)
    requires b in folders && folders[a].parent == folders[b].parent
    ensures a == b
  {
    if n > 0 {
      var up := folders[a].parent.value;
      assert Under(folders, up, b) by { assert Reaches(folders, up, b, n - 1); }
      ReachesOne(folders, b);
      NoLoop(folders, up, b);
      NotOwnParent(folders, b);
    }
  }

  ghost function SizesOfAll(folders: FolderMap, files: FileMap, user: UserId, some: set<FolderId>): map<FolderId, int> {
    map r | r in some :: SubtreeSize(folders, files, user, r)
  }

  /** The active files in or below any of the given folders. */
  ghost function FilesUnderAny(folders: FolderMap, files: FileMap, user: UserId,
                               some: set<FolderId>): map<FileId, int> {
    map f | f in files && IsActiveOf(files[f], user) && files[f].parent.Some?
            && exists r :: r in some && Under(folders, files[f].parent.value, r)
      :: files[f].size
  }

  lemma SizesWithout(folders: FolderMap, files: FileMap, user: UserId, some: set<FolderId>, r: FolderId)
    requires r in some
    ensures Total(SizesOfAll(folders, files, user, some))
         == SubtreeSize(folders, files, user, r) + Total(SizesOfAll(folders, files, user, some - {r}))
  {
    var sizes := SizesOfAll(folders, files, user, some);
    TotalSplit(sizes, r);
    assert sizes - {r} == SizesOfAll(folders, files, user, some - {r});
  }

  lemma NoneUnderNothing(folders: FolderMap, files: FileMap, user: UserId)
    ensures SizesOfAll(folders, files, user, {}) == map[] && FilesUnderAny(folders, files, user, {}) == map[]
  {
  }

  /** Siblings' sizes add up without counting any file twice. */
  lemma {:induction false} SiblingSizesAddUp(folders: FolderMap, files: FileMap, user: UserId,
                                             parent: Option<FolderId>, some: set<FolderId>)
    requires OwnersOk(folders) && Acyclic(folders)
    requires forall r :: r in some ==> r in folders && folders[r].parent == parent
    ensures Total(SizesOfAll(folders, files, user, some)) == Total(FilesUnderAny(folders, files, user, some))
    decreases |some|
  {
    if some == {} {
      NoneUnderNothing(folders, files, user);
    } else {
      var r :| r in some;
      var rest := some - {r};
      SiblingSizesAddUp(folders, files, user, parent, rest);
      SizesWithout(folders, files, user, some, r);
      assert rest + {r} == some;
      OneMoreSibling(folders, files, user, parent, rest, r);
    }
  }

  lemma OneMoreSibling(folders: FolderMap, files: FileMap, user: UserId, parent: Option<FolderId>, rest: set<FolderId>,
                       r: FolderId)
    requires OwnersOk(folders) && Acyclic(folders) && r !in rest
    requires forall x :: x in rest + {r} ==> x in folders && folders[x].parent == parent
    ensures Total(FilesUnderAny(folders, files, user, rest + {r}))
         == Total(FilesUnderAny(folders, files, user, rest)) + SubtreeSize(folders, files, user, r)
  {
    var a := FilesUnderAny(folders, files, user, rest);
    var b := FilesUnder(folders, files, user, r);
    forall f | f in a && f in b
      ensures false
    {
      var x :| x in rest && Under(folders, files[f].parent.value, x);
      SiblingsApart(folders, files[f].parent.value, r, x);
    }
    assert a.Keys !! b.Keys;
    assert FilesUnderAny(folders, files, user, rest + {r}) == a + b;
    TotalUnion(a, b);
  }

  lemma {:induction false} HasRoot(folders: FolderMap, depth: map<FolderId, nat>, x: FolderId) returns (r: FolderId)
    requires OwnersOk(folders) && DepthOk(folders, depth) && x in folders
    ensures r in folders && folders[r].parent.None? && folders[r].owner == folders[x].owner && Under(folders, x, r)
    decreases depth[x]
  {
    if folders[x].parent.None? {
      r := x;
      UnderItself(folders, x);
    } else {
      r := HasRoot(folders, depth, folders[x].parent.value);
      var n: nat :| Reaches(folders, folders[x].parent.value, r, n);
      assert Reaches(folders, x, r, n + 1);
    }
  }

  /** The active files that are in no folder. */
  function RootFiles(files: FileMap, user: UserId): map<FileId, int> {
    map f | f in files && IsActiveOf(files[f], user) && files[f].parent.None? :: files[f].size
  }

  /** Every active file in a folder is below some root folder of its owner. */
  lemma RootsCover(folders: FolderMap, files: FileMap, user: UserId)
    requires OwnersOk(folders) && Acyclic(folders) && FilesPlaced(folders, files)
    ensures FilesUnderAny(folders, files, user, Siblings(folders, user, None)) + RootFiles(files, user)
            == ActiveSizesOf(files, user)
  {
    var roots := Siblings(folders, user, None);
    var below := FilesUnderAny(folders, files, user, roots);
    var depth :| DepthOk(folders, depth);
    forall f | f in files && IsActiveOf(files[f], user) && files[f].parent.Some?
      ensures f in below
    {
      var r := HasRoot(folders, depth, files[f].parent.value);
      assert r in roots;
    }
  }

  /** Root folders' sizes and the active files outside folders make up all of the
      user's active bytes, whatever the shape of the tree. */
  lemma RootSizesAddUp(t: Tree, user: UserId)
    requires TreeOk(t)
    ensures Total(SizesOfAll(t.db.folders, t.db.files, user, Siblings(t.db.folders, user, None)))
            + Total(RootFiles(t.db.files, user))
         == ActiveBytes(t.db, user)
  {
    var roots := Siblings(t.db.folders, user, None);
    SiblingSizesAddUp(t.db.folders, t.db.files, user, None, roots);
    RootsCover(t.db.folders, t.db.files, user);
    TotalUnion(FilesUnderAny(t.db.folders, t.db.files, user, roots), RootFiles(t.db.files, user));
  }

  lemma OwnAndBelow(folders: FolderMap, files: FileMap, user: UserId, folder: FolderId)
    requires OwnersOk(folders) && Acyclic(folders) && FilesPlaced(folders, files) && Owns(folders, user, folder)
    ensures var own, below := FilesIn(files, user, folder),
            FilesUnderAny(folders, files, user, Siblings(folders, user, Some(folder)));
            own.Keys !! below.Keys && own + below == FilesUnder(folders, files, user, folder)
  {
    forall x | x in folders
      ensures Under(folders, x, folder)
              <==> x == folder || exists c :: c in Siblings(folders, user, Some(folder)) && Under(folders, x, c)
      ensures x == folder ==> !exists c :: c in Siblings(folders, user, Some(folder)) && Under(folders, x, c)
    {
      ThroughChild(folders, user, x, folder);
    }
  }

  /** A folder's size is that of its own files and of its subfolders. */
  lemma SizeIsOwnPlusChildren(t: Tree, user: UserId, folder: FolderId)
    requires TreeOk(t) && Owns(t.db.folders, user, folder)
    ensures SubtreeSize(t.db.folders, t.db.files, user, folder)
         == Total(FilesIn(t.db.files, user, folder))
            + Total(SizesOfAll(t.db.folders, t.db.files, user, Siblings(t.db.folders, user, Some(folder))))
  {
    var folders, files := t.db.folders, t.db.files;
    var children := Siblings(folders, user, Some(folder));
    SiblingSizesAddUp(folders, files, user, Some(folder), children);
    OwnAndBelow(folders, files, user, folder);
    TotalUnion(FilesIn(files, user, folder), FilesUnderAny(folders, files, user, children));
  }

  lemma ThroughChild(folders: FolderMap, user: UserId, x: FolderId, folder: FolderId)
    requires OwnersOk(folders) && Acyclic(folders) && x in folders && Owns(folders, user, folder)
    ensures Under(folders, x, folder)
            <==> x == folder || exists c :: c in Siblings(folders, user, Some(folder)) && Under(folders, x, c)
    ensures x == folder ==> !exists c :: c in Siblings(folders, user, Some(folder)) && Under(folders, x, c)
  {
    UnderItself(folders, folder);
    if x != folder && Under(folders, x, folder) {
      var n: nat :| Reaches(folders, x, folder, n);
      var c := LastStep(folders, x, folder, n);
      ClimbOwner(folders, x, folder, n);
      var m: nat :| Reaches(folders, x, c, m);
      ClimbOwner(folders, x, c, m);
      assert c in Siblings(folders, user, Some(folder));
    }
    if c :| c in Siblings(folders, user, Some(folder)) && Under(folders, x, c) {
      var m: nat :| Reaches(folders, x, c, m);
      assert Reaches(folders, c, folder, 1) by { assert Reaches(folders, folder, folder, 0); }
      ClimbJoin(folders, x, c, folder, m, 1);
      if x == folder {
        ReachesOne(folders, c);
        NoLoop(folders, c, folder);
        NotOwnParent(folders, c);
      }
    }
  }

  lemma {:induction false} LastStep(folders: FolderMap, x: FolderId, folder: FolderId, n: nat) returns (c: FolderId)
    requires Reaches(folders, x, folder, n) && n > 0
    ensures c in folders && folders[c].parent == Some(folder) && Under(folders, x, c)
    decreases n
  {
    if n == 1 {
      c := x;
      UnderItself(folders, x);
    } else {
      c := LastStep(folders, folders[x].parent.value, folder, n - 1);
      var m: nat :| Reaches(folders, folders[x].parent.value, c, m);
      assert Reaches(folders, x, c, m + 1);
    }
  }

  lemma SubtreeSizeMovesAlong(folders: FolderMap, files: FileMap, user: UserId, folder: FolderId,
                              parent: Option<FolderId>)
    requires folder in folders && OwnersOk(folders) && OwnersOk(WithParent(folders, folder, parent))
    ensures SubtreeSize(WithParent(folders, folder, parent), files, user, folder)
            == SubtreeSize(folders, files, user, folder)
  {
    forall x
      ensures Under(WithParent(folders, folder, parent), x, folder) <==> Under(folders, x, folder)
    {
      SubtreeMovesAlong(folders, folder, parent, x);
    }
    assert FilesUnder(WithParent(folders, folder, parent), files, user, folder)
      == FilesUnder(folders, files, user, folder);
  }

  /** A legal move changes neither the moved folder's size nor the user's total. */
  lemma MovePreservesSizes(t: Tree, user: UserId, folder: FolderId, parent: Option<FolderId>)
    requires TreeOk(t) && Relocate(t, user, folder, parent).Ok?
    ensures var t' := Relocate(t, user, folder, parent).value;
            && SubtreeSize(t'.db.folders, t'.db.files, user, folder)
               == SubtreeSize(t.db.folders, t.db.files, user, folder)
            && Total(SizesOfAll(t'.db.folders, t'.db.files, user, Siblings(t'.db.folders, user, None)))
            == Total(SizesOfAll(t.db.folders, t.db.files, user, Siblings(t.db.folders, user, None)))
  {
    var t' := Relocate(t, user, folder, parent).value;
    RelocateKeeps(t, user, folder, parent);
    RootSizesAddUp(t, user);
    RootSizesAddUp(t', user);
    SubtreeSizeMovesAlong(t.db.folders, t.db.files, user, folder, parent);
  }
}
