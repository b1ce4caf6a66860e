/** The folder calls of internal/file/service.go, one call at a time, and what
    runs of them keep together with the calls on files. */
module FolderTree {
  import opened Options
  import opened Tables
  import opened Folders

  datatype FolderError = NameRequired | NoSuchFolder | AlreadyExists | MoveCycle | NotEmpty | Constraint

  datatype Tree = Tree(db: Database, nextFolder: FolderId)

  predicate Owns(folders: FolderMap, user: UserId, f: FolderId) {
    f in folders && folders[f].owner == user
  }

  /** ListFolders' ids. */
  function Siblings(folders: FolderMap, user: UserId, parent: Option<FolderId>): set<FolderId> {
    set x | x in folders && folders[x].owner == user && folders[x].parent == parent
  }

  predicate NameTaken(folders: FolderMap, user: UserId, parent: Option<FolderId>, name: string,
                      except: Option<FolderId>) {
    exists x :: x in Siblings(folders, user, parent) && Some(x) != except && folders[x].name == name
  }

  function Create(t: Tree, user: UserId, parent: Option<FolderId>, name: string): Result<Tree, FolderError> {
    if name == "" then Err(NameRequired)
    else if !FolderFound(t.db, user, parent) then Err(NoSuchFolder)
    else if NameTaken(t.db.folders, user, parent, name, None) then Err(AlreadyExists)
    else if user !in t.db.users then Err(Constraint)
    else Ok(Tree(t.db.(folders := t.db.folders[t.nextFolder := FolderRow(user, parent, name)]), t.nextFolder + 1))
  }

  function Rename(t: Tree, user: UserId, f: FolderId, name: string): Result<Tree, FolderError> {
    if name == "" then Err(NameRequired)
    else if !Owns(t.db.folders, user, f) then Err(NoSuchFolder)
    else if NameTaken(t.db.folders, user, t.db.folders[f].parent, name, Some(f)) then Err(AlreadyExists)
    else Ok(t.(db := t.db.(folders := t.db.folders[f := t.db.folders[f].(name := name)])))
  }

  /** What MoveFolder should do, said with descendants instead of a walk. */
  ghost function Relocate(t: Tree, user: UserId, f: FolderId, parent: Option<FolderId>): Result<Tree, FolderError> {
    if !Owns(t.db.folders, user, f) then Err(NoSuchFolder)
    else if parent.Some? && !Owns(t.db.folders, user, parent.value) then Err(NoSuchFolder)
    else if parent.Some? && Under(t.db.folders, parent.value, f) then Err(MoveCycle)
    else if NameTaken(t.db.folders, user, parent, t.db.folders[f].name, Some(f)) then Err(AlreadyExists)
    else Ok(t.(db := t.db.(folders := WithParent(t.db.folders, f, parent))))
  }

  predicate Occupied(t: Tree, user: UserId, f: FolderId) {
    || (exists x :: x in t.db.folders && t.db.folders[x].owner == user && t.db.folders[x].parent == Some(f))
    || (exists x :: x in t.db.files && t.db.files[x].owner == user && t.db.files[x].parent == Some(f))
  }

  /** DeleteFolder; pinned holds the folders that upload tasks refer to. */
  function Delete(t: Tree, user: UserId, f: FolderId, pinned: set<FolderId>): Result<Tree, FolderError> {
    if !Owns(t.db.folders, user, f) then Err(NoSuchFolder)
    else if Occupied(t, user, f) then Err(NotEmpty)
    else if f in pinned then Err(Constraint)
    else Ok(t.(db := t.db.(folders := t.db.folders - {f})))
  }

  // ---- what an accepted call leaves in the tables ----

  /** Only the one folder's row differs; no file and no other table does. */
  predicate OnlyFolderDiffers(t: Tree, t': Tree, f: FolderId) {
    && t'.db == t.db.(folders := t'.db.folders) && t'.nextFolder == t.nextFolder
    && f in t.db.folders && t'.db.folders.Keys == t.db.folders.Keys
    && forall x :: x in t.db.folders && x != f ==> t'.db.folders[x] == t.db.folders[x]
  }

  /** No other folder of the user in this parent has the name. */
  predicate NameFree(folders: FolderMap, user: UserId, parent: Option<FolderId>, name: string,
                     except: Option<FolderId>) {
    forall x :: x in folders && Some(x) != except && folders[x].owner == user && folders[x].parent == parent ==>
      folders[x].name != name
  }

  predicate IsPlace(folders: FolderMap, user: UserId, parent: Option<FolderId>) {
    parent.Some? ==> parent.value in folders && folders[parent.value].owner == user
  }

  lemma NameFreeIff(folders: FolderMap, user: UserId, parent: Option<FolderId>, name: string, except: Option<FolderId>)
    ensures NameFree(folders, user, parent, name, except) <==> !NameTaken(folders, user, parent, name, except)
  {
    if !NameFree(folders, user, parent, name, except) {
      var x :| x in folders && Some(x) != except && folders[x].owner == user && folders[x].parent == parent
               && folders[x].name == name;
      assert x in Siblings(folders, user, parent);
    }
  }

  /** A folder is created exactly for a name that is free in an own folder or at the
      root, and then one new row with this owner, parent and name is all that changes. */
  lemma CreatedFolder(t: Tree, user: UserId, parent: Option<FolderId>, name: string)
    requires t.nextFolder !in t.db.folders
    ensures var r := Create(t, user, parent, name);
            && (r.Ok? <==> name != "" && IsPlace(t.db.folders, user, parent) && user in t.db.users
                           && NameFree(t.db.folders, user, parent, name, None))
            && (r.Ok? ==>
                  var t', f := r.value, t.nextFolder;
                  && t'.db == t.db.(folders := t'.db.folders) && t'.nextFolder == f + 1
                  && t'.db.folders.Keys == t.db.folders.Keys + {f}
                  && (forall x :: x in t.db.folders ==> t'.db.folders[x] == t.db.folders[x])
                  && t'.db.folders[f].owner == user && t'.db.folders[f].parent == parent
                  && t'.db.folders[f].name == name)
  {
    NameFreeIff(t.db.folders, user, parent, name, None);
  }

  /** A rename happens exactly for an own folder and a name no sibling has, and changes
      the name and nothing else. */
  lemma RenamedFolder(t: Tree, user: UserId, f: FolderId, name: string)
    ensures var r := Rename(t, user, f, name);
            && (r.Ok? <==> name != "" && f in t.db.folders && t.db.folders[f].owner == user
                           && NameFree(t.db.folders, user, t.db.folders[f].parent, name, Some(f)))
            && (r.Ok? ==>
                  && OnlyFolderDiffers(t, r.value, f)
                  && var row, row' := t.db.folders[f], r.value.db.folders[f];
                     row'.name == name && row'.parent == row.parent && row'.owner == row.owner)
  {
    if f in t.db.folders {
      NameFreeIff(t.db.folders, user, t.db.folders[f].parent, name, Some(f));
    }
  }

  /** A move happens exactly for an own folder, to the root or an own folder outside its
      subtree where no other folder has its name. It gives the folder this parent and
      changes nothing else: the folder is listed there, and nowhere else. */
  lemma MovedFolder(t: Tree, user: UserId, f: FolderId, parent: Option<FolderId>)
    ensures var r := Relocate(t, user, f, parent);
            && (r.Ok? <==> f in t.db.folders && t.db.folders[f].owner == user && IsPlace(t.db.folders, user, parent)
                           && !(parent.Some? && Under(t.db.folders, parent.value, f))
                           && NameFree(t.db.folders, user, parent, t.db.folders[f].name, Some(f)))
            && (r.Ok? ==>
                  && OnlyFolderDiffers(t, r.value, f)
                  && (var row, row' := t.db.folders[f], r.value.db.folders[f];
                      row'.parent == parent && row'.name == row.name && row'.owner == row.owner)
                  && (forall p :: f in Siblings(r.value.db.folders, user, p) <==> p == parent))
  {
    if f in t.db.folders {
      NameFreeIff(t.db.folders, user, parent, t.db.folders[f].name, Some(f));
    }
  }

  /** A delete happens exactly for an own folder that holds no folder and no file, active
      or trashed, and that no upload task refers to; the folder is gone and nothing
      else. */
  lemma DeletedFolder(t: Tree, user: UserId, f: FolderId, pinned: set<FolderId>)
    ensures var r := Delete(t, user, f, pinned);
            && (r.Ok? <==>
                  && f in t.db.folders && t.db.folders[f].owner == user && f !in pinned
                  && (forall x :: x in t.db.folders && t.db.folders[x].owner == user ==>
                        t.db.folders[x].parent != Some(f))
                  && (forall x :: x in t.db.files && t.db.files[x].owner == user ==> t.db.files[x].parent != Some(f)))
            && (r.Ok? ==>
                  && r.value.db == t.db.(folders := r.value.db.folders) && r.value.nextFolder == t.nextFolder
                  && r.value.db.folders.Keys == t.db.folders.Keys - {f}
                  && forall x :: x in t.db.folders && x != f ==> r.value.db.folders[x] == t.db.folders[x])
  {
  }

  // ---- the service ----

  class FolderService {
    var db: Database
    var nextFolder: FolderId

    function Now(): Tree
      reads this
    {
      Tree(db, nextFolder)
    }

    ghost predicate Valid()
      reads this
    {
      FoldersOk(db.folders, nextFolder) && FilesPlaced(db.folders, db.files)
    }

    constructor ()
      ensures Valid() && Now() == Tree(EMPTY, 1)
    {
      db, nextFolder := EMPTY, 1;
      new;
      ghost var depth: map<FolderId, nat> := map[];
      assert DepthOk(db.folders, depth);
    }

    /** The loop over siblings. */
    method HasSibling(user: UserId, parent: Option<FolderId>, name: string, except: Option<FolderId>)
      returns (taken: bool)
      ensures taken <==> NameTaken(db.folders, user, parent, name, except)
    {
      var left := Siblings(db.folders, user, parent);
      while left != {}
        invariant left <= Siblings(db.folders, user, parent)
        invariant forall x :: x in Siblings(db.folders, user, parent) - left ==>
                    Some(x) == except || db.folders[x].name != name
      {
        var x :| x in left;
        if Some(x) != except && db.folders[x].name == name {
          return true;
        }
        left := left - {x};
      }
      taken := false;
    }

    method CreateFolder(user: UserId, parent: Option<FolderId>, name: string) returns (r: Result<FolderId, FolderError>)
      requires Valid()
      modifies this`db, this`nextFolder
      ensures r.Ok? ==> Ok(Now()) == Create(old(Now()), user, parent, name) && r.value == old(nextFolder)
      ensures r.Ok? ==> r.value in db.folders && db.folders[r.value] == FolderRow(user, parent, name)
      ensures r.Err? ==> Now() == old(Now()) && Create(Now(), user, parent, name) == Err(r.error)
    {
      if name == "" {
        return Err(NameRequired);
      }
      if parent.Some? && !Owns(db.folders, user, parent.value) {
        return Err(NoSuchFolder);
      }
      var taken := HasSibling(user, parent, name, None);
      if taken {
        return Err(AlreadyExists);
      }
      if user !in db.users {
        return Err(Constraint);
      }
      db := db.(folders := db.folders[nextFolder := FolderRow(user, parent, name)]);
      nextFolder := nextFolder + 1;
      r := Ok(nextFolder - 1);
    }

    method RenameFolder(user: UserId, f: FolderId, name: string) returns (r: Result<(), FolderError>)
      modifies this`db
      ensures r.Ok? ==> Ok(Now()) == Rename(old(Now()), user, f, name)
      ensures r.Ok? ==> OnlyFolderDiffers(old(Now()), Now(), f) && db.folders[f] == old(db.folders[f]).(name := name)
      ensures r.Err? ==> Now() == old(Now()) && Rename(Now(), user, f, name) == Err(r.error)
    {
      if name == "" {
        return Err(NameRequired);
      }
      if !Owns(db.folders, user, f) {
        return Err(NoSuchFolder);
      }
      var taken := HasSibling(user, db.folders[f].parent, name, Some(f));
      if taken {
        return Err(AlreadyExists);
      }
      db := db.(folders := db.folders[f := db.folders[f].(name := name)]);
      r := Ok(());
    }

    /** The walk up from the new parent ends because the table is a forest, and it
        reports a cycle exactly when the new parent is f or below f. */
    method MoveFolder(user: UserId, f: FolderId, parent: Option<FolderId>) returns (r: Result<(), FolderError>)
      requires Valid()
      modifies this`db
      ensures r.Ok? ==> Ok(Now()) == Relocate(old(Now()), user, f, parent)
      ensures r.Ok? ==> OnlyFolderDiffers(old(Now()), Now(), f)
      ensures r.Ok? ==> db.folders[f] == old(db.folders[f]).(parent := parent)
      ensures r.Err? ==> Now() == old(Now()) && Relocate(Now(), user, f, parent) == Err(r.error)
      ensures r == Err(MoveCycle) <==>
              Owns(old(db.folders), user, f) && parent.Some? && Owns(old(db.folders), user, parent.value)
                && Under(old(db.folders), parent.value, f)
    {
      if !Owns(db.folders, user, f) {
        return Err(NoSuchFolder);
      }
      UnderItself(db.folders, f);
      if parent.Some? {
        if parent.value == f {
          return Err(MoveCycle);
        }
        var folders := db.folders;
        ghost var depth :| DepthOk(folders, depth);
        var current := parent;
        while current.Some?
          invariant db == old(db)
          invariant current.Some? && current != parent ==> Owns(folders, user, current.value)
          invariant current != parent ==> Owns(folders, user, parent.value)
          invariant Under(folders, parent.value, f) <==> current.Some? && Under(folders, current.value, f)
          decreases if current.Some? && current.value in folders then depth[current.value] + 1 else 0
        {
          var id := current.value;
          if !Owns(folders, user, id) {
            return Err(NoSuchFolder);
          }
          if id == f {
            return Err(MoveCycle);
          }
          ReachesStep(folders, id, f);
          current := folders[id].parent;
        }
      }
      var taken := HasSibling(user, parent, db.folders[f].name, Some(f));
      if taken {
        return Err(AlreadyExists);
      }
      db := db.(folders := WithParent(db.folders, f, parent));
      r := Ok(());
    }

    method DeleteFolder(user: UserId, f: FolderId, pinned: set<FolderId>) returns (r: Result<(), FolderError>)
      modifies this`db
      ensures r.Ok? ==> Ok(Now()) == Delete(old(Now()), user, f, pinned)
      ensures r.Ok? ==> f !in db.folders && forall x :: x in old(db.folders) && x != f ==> x in db.folders
      ensures r.Err? ==> Now() == old(Now()) && Delete(Now(), user, f, pinned) == Err(r.error)
    {
      if !Owns(db.folders, user, f) {
        return Err(NoSuchFolder);
      }
      var hasChild := exists x :: x in db.folders && db.folders[x].owner == user && db.folders[x].parent == Some(f);
      var hasFile := exists x :: x in db.files && db.files[x].owner == user && db.files[x].parent == Some(f);
      if hasChild || hasFile {
        return Err(NotEmpty);
      }
      if f in pinned {
        return Err(Constraint);
      }
      db := db.(folders := db.folders - {f});
      r := Ok(());
    }
  }

  // ---- runs of calls ----

  datatype Event =
    | CreateFolder(user: UserId, parent: Option<FolderId>, name: string)
    | RenameFolder(user: UserId, folder: FolderId, name: string)
    | MoveFolder(user: UserId, folder: FolderId, parent: Option<FolderId>)
    | DeleteFolder(user: UserId, folder: FolderId, pinned: set<FolderId>)
    | AddFile(user: UserId, parent: Option<FolderId>, name: string, snapshot: Snapshot)
    | AddFiles(user: UserId, parent: Option<FolderId>, items: seq<NamedObject>, quota: int)
    | MoveFile(user: UserId, file: FileId, parent: Option<FolderId>)
    | RenameFile(user: UserId, file: FileId, name: string)
    | Trash(user: UserId, file: FileId, keepShares: bool, now: Time)
    | Untrash(user: UserId, file: FileId)
    | Purge(user: UserId, file: FileId)

  function TreeOr(r: Result<Tree, FolderError>, t: Tree): Tree {
    if r.Ok? then r.value else t
  }

  predicate RowEvent(e: Event) {
    e.MoveFile? || e.RenameFile? || e.Trash? || e.Untrash?
  }

  /** The calls that update one file. */
  function StepRow(db: Database, e: Event): Database
    requires RowEvent(e)
  {
    if e.MoveFile? then (if FolderFound(db, e.user, e.parent) then DbOr(MoveActive(db, e.user, e.file, e.parent), db)
                         else db)
    else if e.RenameFile? then (if e.name == "" then db else DbOr(RenameActive(db, e.user, e.file, e.name), db))
    else if e.Trash? then DbOr(SoftDelete(db, e.user, e.file, e.keepShares, e.now), db)
    else DbOr(Restore(db, e.user, e.file), db)
  }

  predicate TableEvent(e: Event) {
    e.AddFile? || e.AddFiles? || e.Purge?
  }

  /** The calls that add files or drop one. */
  ghost function StepTable(db: Database, e: Event): Database
    requires TableEvent(e)
  {
    if e.AddFile? then
      (if FolderFound(db, e.user, e.parent) then DbOr(AddReference(db, e.user, e.parent, e.name, e.snapshot), db)
       else db)
    else if e.AddFiles? then DbOr(CreateMany(db, e.user, e.parent, e.items, e.quota), db)
    else if PurgeDeleted(db, e.user, e.file).Ok? then PurgeDeleted(db, e.user, e.file).value.db
    else db
  }

  /** The calls on folders. */
  ghost function StepFolder(t: Tree, e: Event): Tree
    requires !RowEvent(e) && !TableEvent(e)
  {
    if e.CreateFolder? then TreeOr(Create(t, e.user, e.parent, e.name), t)
    else if e.RenameFolder? then TreeOr(Rename(t, e.user, e.folder, e.name), t)
    else if e.MoveFolder? then TreeOr(Relocate(t, e.user, e.folder, e.parent), t)
    else TreeOr(Delete(t, e.user, e.folder, e.pinned), t)
  }

  ghost function Step(t: Tree, e: Event): Tree {
    if RowEvent(e) then t.(db := StepRow(t.db, e))
    else if TableEvent(e) then t.(db := StepTable(t.db, e))
    else StepFolder(t, e)
  }

  ghost function Run(t: Tree, events: seq<Event>): Tree {
    if events == [] then t else Step(Run(t, events[..|events| - 1]), events[|events| - 1])
  }

  /** Only trashed files carry a time of deletion. */
  predicate StampsOk(files: map<FileId, FileRow>) {
    forall f :: f in files && files[f].status == Active ==> files[f].deletedAt == None
  }

  ghost predicate TreeOk(t: Tree) {
    && FoldersOk(t.db.folders, t.nextFolder)
    && FilesPlaced(t.db.folders, t.db.files)
    && StampsOk(t.db.files)
    && forall f :: f in t.db.files ==> f < t.db.nextFile
  }

  lemma NewFolderOk(folders: FolderMap, next: FolderId, row: FolderRow)
    requires FoldersOk(folders, next) && (row.parent.Some? ==> Owns(folders, row.owner, row.parent.value))
    requires forall x :: x in folders && SameParent(folders[x], row) ==> folders[x].name != row.name
    ensures FoldersOk(folders[next := row], next + 1)
  {
    var depth :| DepthOk(folders, depth);
    assert DepthOk(folders[next := row], depth[next := if row.parent.Some? then depth[row.parent.value] + 1 else 0]);
  }

  lemma CreateKeeps(t: Tree, user: UserId, parent: Option<FolderId>, name: string)
    requires TreeOk(t) && Create(t, user, parent, name).Ok?
    ensures TreeOk(Create(t, user, parent, name).value)
  {
    forall x | x in t.db.folders && SameParent(t.db.folders[x], FolderRow(user, parent, name))
      ensures t.db.folders[x].name != name
    {
      assert x in Siblings(t.db.folders, user, parent);
    }
    NewFolderOk(t.db.folders, t.nextFolder, FolderRow(user, parent, name));
  }

  lemma RenameKeeps(t: Tree, user: UserId, f: FolderId, name: string)
    requires TreeOk(t) && Rename(t, user, f, name).Ok?
    ensures TreeOk(Rename(t, user, f, name).value)
  {
    var folders := t.db.folders;
    var folders' := Rename(t, user, f, name).value.db.folders;
    var depth :| DepthOk(folders, depth);
    assert DepthOk(folders', depth);
    forall x | x in folders && x != f && SameParent(folders[x], folders[f])
      ensures folders[x].name != name
    {
      assert x in Siblings(folders, user, folders[f].parent);
    }
  }

  lemma MoveKeepsNames(folders: FolderMap, f: FolderId, parent: Option<FolderId>)
    requires NamesOk(folders) && f in folders && !NameTaken(folders, folders[f].owner, parent, folders[f].name, Some(f))
    ensures NamesOk(WithParent(folders, f, parent))
  {
    forall x | x in folders && x != f && folders[x].owner == folders[f].owner && folders[x].parent == parent
      ensures folders[x].name != folders[f].name
    {
      assert x in Siblings(folders, folders[f].owner, parent);
    }
  }

  lemma MoveKeepsFolders(folders: FolderMap, next: FolderId, f: FolderId, parent: Option<FolderId>)
    requires FoldersOk(folders, next) && f in folders
    requires !NameTaken(folders, folders[f].owner, parent, folders[f].name, Some(f))
    requires parent.Some? ==> Owns(folders, folders[f].owner, parent.value) && !Under(folders, parent.value, f)
    ensures FoldersOk(WithParent(folders, f, parent), next)
  {
    MoveKeepsForestIff(folders, f, parent);
    MoveKeepsNames(folders, f, parent);
  }

  lemma RelocateKeeps(t: Tree, user: UserId, f: FolderId, parent: Option<FolderId>)
    requires TreeOk(t) && Relocate(t, user, f, parent).Ok?
    ensures TreeOk(Relocate(t, user, f, parent).value)
  {
    MoveKeepsFolders(t.db.folders, t.nextFolder, f, parent);
  }

  lemma DeleteKeeps(t: Tree, user: UserId, f: FolderId, pinned: set<FolderId>)
    requires TreeOk(t) && Delete(t, user, f, pinned).Ok?
    ensures TreeOk(Delete(t, user, f, pinned).value)
  {
    var folders' := t.db.folders - {f};
    var depth :| DepthOk(t.db.folders, depth);
    assert DepthOk(folders', depth);
  }

  /** What a call on files may do to them, as far as folders go. */
  predicate Placed(db: Database, db': Database) {
    && db'.folders == db.folders && db.nextFile <= db'.nextFile
    && forall f :: f in db'.files ==>
         && f < db'.nextFile
         && (db'.files[f].status == Active ==> db'.files[f].deletedAt == None)
         && ((f in db.files && db'.files[f].owner == db.files[f].owner && db'.files[f].parent == db.files[f].parent)
             || FolderFound(db, db'.files[f].owner, db'.files[f].parent))
  }

  lemma {:induction false} AddReferencesPlaced(db: Database, user: UserId, parent: Option<FolderId>,
                                               items: seq<NamedObject>)
    requires FolderFound(db, user, parent) && AddReferences(db, user, parent, items).Ok?
    requires StampsOk(db.files) && forall f :: f in db.files ==> f < db.nextFile
    ensures Placed(db, AddReferences(db, user, parent, items).value)
    decreases |items|
  {
    if items != [] {
      AddReferencesPlaced(db, user, parent, items[..|items| - 1]);
    }
  }

  predicate OneRowChanged(db: Database, db': Database, file: FileId) {
    && db'.folders == db.folders && db'.nextFile == db.nextFile
    && file in db.files && file in db'.files && db'.files == db.files[file := db'.files[file]]
    && var row, row' := db.files[file], db'.files[file];
       && row'.owner == row.owner
       && (row'.status == Active ==>
             row'.deletedAt == None || (row'.deletedAt == row.deletedAt && row.status == Active))
       && (row'.parent == row.parent || FolderFound(db, row.owner, row'.parent))
  }

  lemma RowChanges(db: Database, e: Event)
    requires RowEvent(e)
    ensures StepRow(db, e) == db || OneRowChanged(db, StepRow(db, e), e.file)
  {
  }

  lemma RowPlaced(db: Database, e: Event)
    requires StampsOk(db.files) && (forall f :: f in db.files ==> f < db.nextFile) && RowEvent(e)
    ensures Placed(db, StepRow(db, e))
  {
    RowChanges(db, e);
  }

  lemma TablePlaced(db: Database, e: Event)
    requires StampsOk(db.files) && (forall f :: f in db.files ==> f < db.nextFile) && TableEvent(e)
    ensures Placed(db, StepTable(db, e))
  {
    if e.AddFiles? && CreateMany(db, e.user, e.parent, e.items, e.quota).Ok? {
      AddReferencesPlaced(db, e.user, e.parent, e.items);
    }
  }

  lemma PlacedKeeps(t: Tree, db': Database)
    requires TreeOk(t) && Placed(t.db, db')
    ensures TreeOk(t.(db := db'))
  {
  }

  lemma FolderStepKeeps(t: Tree, e: Event)
    requires TreeOk(t) && !RowEvent(e) && !TableEvent(e)
    ensures TreeOk(StepFolder(t, e))
  {
    if e.CreateFolder? {
      if Create(t, e.user, e.parent, e.name).Ok? { CreateKeeps(t, e.user, e.parent, e.name); }
    } else if e.RenameFolder? {
      if Rename(t, e.user, e.folder, e.name).Ok? { RenameKeeps(t, e.user, e.folder, e.name); }
    } else if e.MoveFolder? {
      if Relocate(t, e.user, e.folder, e.parent).Ok? { RelocateKeeps(t, e.user, e.folder, e.parent); }
    } else {
      if Delete(t, e.user, e.folder, e.pinned).Ok? { DeleteKeeps(t, e.user, e.folder, e.pinned); }
    }
  }

  lemma StepKeepsTree(t: Tree, e: Event)
    requires TreeOk(t)
    ensures TreeOk(Step(t, e))
  {
    if RowEvent(e) {
      RowPlaced(t.db, e);
      PlacedKeeps(t, StepRow(t.db, e));
    } else if TableEvent(e) {
      TablePlaced(t.db, e);
      PlacedKeeps(t, StepTable(t.db, e));
    } else {
      FolderStepKeeps(t, e);
    }
  }

  /** Over any run the folders stay a forest without dangling or foreign parents,
      sibling names stay unique, and every file, trashed or not, keeps an existing
      folder of its owner. */
  lemma {:induction false} RunKeepsTree(t: Tree, events: seq<Event>)
    requires TreeOk(t)
    ensures TreeOk(Run(t, events))
    decreases |events|
  {
    if events != [] {
      RunKeepsTree(t, events[..|events| - 1]);
      StepKeepsTree(Run(t, events[..|events| - 1]), events[|events| - 1]);
    }
  }

  // ---- trash and back ----

  predicate LeavesInTrash(e: Event, file: FileId) {
    !(e.Untrash? && e.file == file) && !(e.Purge? && e.file == file)
  }

  lemma {:induction false} AddReferencesKeepOld(db: Database, user: UserId, parent: Option<FolderId>,
                                                items: seq<NamedObject>, file: FileId)
    requires AddReferences(db, user, parent, items).Ok? && file in db.files && file < db.nextFile
    ensures var db' := AddReferences(db, user, parent, items).value;
            file in db'.files && db'.files[file] == db.files[file] && file < db'.nextFile
    decreases |items|
  {
    if items != [] {
      AddReferencesKeepOld(db, user, parent, items[..|items| - 1], file);
    }
  }

  lemma RowStays(db: Database, e: Event, file: FileId)
    requires file in db.files && db.files[file].status == Deleted && RowEvent(e) && LeavesInTrash(e, file)
    ensures file in StepRow(db, e).files && StepRow(db, e).files[file] == db.files[file]
  {
  }

  lemma TableStays(db: Database, e: Event, file: FileId)
    requires file in db.files && file < db.nextFile && TableEvent(e) && LeavesInTrash(e, file)
    ensures file in StepTable(db, e).files && StepTable(db, e).files[file] == db.files[file]
  {
    if e.AddFiles? && CreateMany(db, e.user, e.parent, e.items, e.quota).Ok? {
      AddReferencesKeepOld(db, e.user, e.parent, e.items, file);
    }
  }

  lemma TrashedFileStays(t: Tree, e: Event, file: FileId)
    requires file in t.db.files && file < t.db.nextFile && t.db.files[file].status == Deleted && LeavesInTrash(e, file)
    ensures var db' := Step(t, e).db;
            file in db'.files && db'.files[file] == t.db.files[file]
  {
    if RowEvent(e) {
      RowStays(t.db, e, file);
    } else if TableEvent(e) {
      TableStays(t.db, e, file);
    }
  }

  lemma {:induction false} TrashedFileWaits(t: Tree, events: seq<Event>, file: FileId)
    requires TreeOk(t) && file in t.db.files && t.db.files[file].status == Deleted
    requires forall i :: 0 <= i < |events| ==> LeavesInTrash(events[i], file)
    ensures var db' := Run(t, events).db;
            file in db'.files && db'.files[file] == t.db.files[file]
    decreases |events|
  {
    if events != [] {
      var before := events[..|events| - 1];
      TrashedFileWaits(t, before, file);
      RunKeepsTree(t, before);
      TrashedFileStays(Run(t, before), events[|events| - 1], file);
    }
  }

  /** Soft delete, then any run of calls that neither restores nor purges the file,
      then restore: the record is back exactly as it was, and its folder is still
      there and still its owner's. */
  lemma RestoreBringsItBack(t: Tree, user: UserId, file: FileId, keepShares: bool, now: Time, events: seq<Event>)
    requires TreeOk(t) && SoftDelete(t.db, user, file, keepShares, now).Ok?
    requires forall i :: 0 <= i < |events| ==> LeavesInTrash(events[i], file)
    ensures var later := Run(Step(t, Trash(user, file, keepShares, now)), events);
            && Restore(later.db, user, file).Ok?
            && Restore(later.db, user, file).value.files[file] == t.db.files[file]
            && FolderFound(later.db, user, t.db.files[file].parent)
  {
    var trashed := Step(t, Trash(user, file, keepShares, now));
    StepKeepsTree(t, Trash(user, file, keepShares, now));
    TrashedFileWaits(trashed, events, file);
    RunKeepsTree(trashed, events);
  }
}
