/** internal/share/service.go: opening and saving what a share or a collection
    names, with the access controller, the slots and the file service behind it.
    One call at a time; ShareSlots and ScanGate interleave the parts. */
module ShareServices {
  import opened Options
  import opened Chunking
  import opened Tables
  import opened References
  import opened FileRepositories
  import opened FileServices
  import opened AccessControls
  import Collections
  import FileCalls
  import Lockout
  import RateLimit
  import ScanGate
  import ShareSlots
  import Usage

  datatype ShareError =
    | PasswordLocked | ShareNotFound | Expired | PasswordRequired | PasswordInvalid | LimitReached
    | NoSuchFile | Unavailable | RateLimited | NotStored | SaveFailed(error: Usage.CallError)

  /** The columns of a share that decide access. */
  datatype Access = Access(passwordHash: string, expiresAt: Option<Time>)

  datatype SharedFile = SharedFile(file: FileId, objectId: ObjectId, name: string, path: Path, fileHash: Digest)

  datatype PublicFile = PublicFile(file: FileId, name: string, size: int, hasPreview: bool)

  /** validateShareAccess; matches is the bcrypt comparison. */
  function Refusal(access: Access, limit: Option<int>, downloads: int, password: string, needsSlot: bool, now: Time,
                   matches: (string, string) -> bool): Option<ShareError>
  {
    if access.expiresAt.Some? && access.expiresAt.value <= now then Some(Expired)
    else if access.passwordHash != "" && password == "" then Some(PasswordRequired)
    else if access.passwordHash != "" && !matches(access.passwordHash, password) then Some(PasswordInvalid)
    else if needsSlot && limit.Some? && downloads >= limit.value then Some(LimitReached)
    else None
  }

  /** The join behind FindActiveFileByShareToken and FindCollectionFile. */
  function Shared(db: Database, f: FileId): Option<SharedFile> {
    if ScanGate.ActiveFile(db, f) && db.files[f].objectId in db.objects then
      var row := db.files[f];
      Some(SharedFile(f, row.objectId, row.name, row.path, db.objects[row.objectId].hash))
    else None
  }

  /** The join and CheckFileObjectDownload. */
  function Available(db: Database, f: FileId, scanning: bool): Result<SharedFile, ShareError> {
    var shared := Shared(db, f);
    if shared.None? then Err(NoSuchFile)
    else if scanning && !ScanGate.MayDownload(db, shared.value.objectId) then Err(Unavailable)
    else Ok(shared.value)
  }

  // ---- what a visitor may have, said without the checks ----

  predicate Unexpired(access: Access, now: Time) {
    match access.expiresAt
    case Some(at) => now < at
    case None => true
  }

  /** A share without a password opens to any, one with a password to the right one. */
  predicate PasswordFits(access: Access, password: string, matches: (string, string) -> bool) {
    access.passwordHash == "" || (password != "" && matches(access.passwordHash, password))
  }

  /** A password was given, and it is the wrong one. */
  predicate PasswordWrong(access: Access, password: string, matches: (string, string) -> bool) {
    access.passwordHash != "" && password != "" && !matches(access.passwordHash, password)
  }

  predicate HasRoom(limit: Option<int>, downloads: int, n: nat) {
    match limit
    case Some(most) => downloads + n <= most
    case None => true
  }

  /** An active file whose object is there and, with a scanner configured, clean. */
  predicate CanBeOpened(db: Database, f: FileId, scanning: bool) {
    && f in db.files && db.files[f].status == Active && db.files[f].objectId in db.objects
    && (scanning ==> db.files[f].objectId in db.scans && db.scans[db.files[f].objectId] == Clean)
  }

  /** The checks refuse nothing exactly to a visitor who comes in time, with the right
      password and, where a slot is wanted, while there is one; a wrong password is what
      they refuse exactly when it is given in time. */
  lemma RefusalIff(access: Access, limit: Option<int>, downloads: int, password: string, needsSlot: bool, now: Time,
                   matches: (string, string) -> bool)
    ensures var refusal := Refusal(access, limit, downloads, password, needsSlot, now, matches);
            && (refusal.None? <==>
                  && Unexpired(access, now) && PasswordFits(access, password, matches)
                  && (needsSlot ==> HasRoom(limit, downloads, 1)))
            && (refusal == Some(PasswordInvalid)
                <==> Unexpired(access, now) && PasswordWrong(access, password, matches))
            && refusal != Some(PasswordLocked)
  {
  }

  lemma AvailableIff(db: Database, f: FileId, scanning: bool)
    ensures var r := Available(db, f, scanning);
            && (r.Ok? <==> CanBeOpened(db, f, scanning))
            && (r.Ok? ==>
                  var row := db.files[f];
                  r.value == SharedFile(f, row.objectId, row.name, row.path, db.objects[row.objectId].hash))
            && (r.Err? ==> r.error == NoSuchFile || r.error == Unavailable)
  {
  }

  /** The row of ListCollectionFiles and the answer of GetPublicFile. */
  function Public(db: Database, f: FileId): PublicFile
    requires f in db.files
  {
    PublicFile(f, db.files[f].name, db.files[f].size, db.files[f].objectId in db.previews)
  }

  function ErrorOf<T>(r: Result<T, ShareError>): Option<ShareError> {
    if r.Err? then Some(r.error) else None
  }

  /** What a visitor's key has failed after a call that ended so far with the given
      error: a wrong password counts, passing the checks forgives. */
  function FailuresAfter(e: Lockout.Failures, error: Option<ShareError>, now: Time): Lockout.Failures {
    if error == Some(PasswordInvalid) then Lockout.Record(e, now)
    else if error == Some(PasswordLocked) || error == Some(ShareNotFound) || error == Some(Expired)
            || error == Some(PasswordRequired) || error == Some(LimitReached) then e
    else Lockout.NO_FAILURES
  }

  function SharedMembers(db: Database, members: set<FileId>): set<FileId> {
    set f | f in members && Shared(db, f).Some?
  }

  function ActiveMembers(db: Database, members: set<FileId>): set<FileId> {
    set f | f in members && ScanGate.ActiveFile(db, f)
  }

  ghost predicate Listed(members: set<FileId>, listing: seq<FileId>) {
    && (forall f :: f in members <==> f in listing)
    && (forall i, j :: 0 <= i < j < |listing| ==> listing[i] != listing[j])
  }

  function ShareReserved(db: Database, token: Token): Database
    requires token in db.shares
  {
    db.(shares := db.shares[token := db.shares[token].(downloads := db.shares[token].downloads + 1)])
  }

  /** The share's count went up by one; no other share and no collection moved. */
  predicate OneSlotTaken(db: Database, db': Database, token: Token) {
    && token in db.shares && db'.collections == db.collections && db'.shares.Keys == db.shares.Keys
    && (forall t :: t in db.shares && t != token ==> db'.shares[t] == db.shares[t])
    && db'.shares[token] == db.shares[token].(downloads := db.shares[token].downloads + 1)
  }

  function ShareReleased(db: Database, token: Token): Database {
    if token !in db.shares then db
    else
      var row := db.shares[token];
      var slots := ShareSlots.Slots(false, row.maxDownloads, row.downloads, None);
      db.(shares := db.shares[token := row.(downloads := ShareSlots.Release(slots, 1).count)])
  }

  class ShareService {
    const files: FileService
    const control: AccessControl
    const matches: (string, string) -> bool
    const scanning: bool
    var access: map<Token, Access>

    constructor (files: FileService, control: AccessControl, matches: (string, string) -> bool, scanning: bool)
      ensures this.files == files && this.control == control && this.matches == matches && this.scanning == scanning
      ensures access == map[]
    {
      this.files, this.control, this.matches, this.scanning := files, control, matches, scanning;
      access := map[];
    }

    function Db(): Database
      reads files.repo
    {
      files.repo.Db()
    }

    function Entry(token: Token, ip: string): Lockout.Failures
      reads control
    {
      control.Entry(AccessKey(token, ip))
    }

    function Locked(token: Token, ip: string, now: Time): bool
      reads control
    {
      Lockout.Locked(Entry(token, ip), now)
    }

    /** The answer the rate limiter would give now. */
    function Allowed(token: Token, ip: string, now: Time): bool
      reads control
    {
      RateLimit.Decide(control.Window(AccessKey(token, ip)), now).allowed
    }

    /** What a call leaves in the access controller when the lock and the checks end
        with the given error and asked says whether the limiter came next: the
        visitor's own entries move, all others stay. */
    twostate predicate Controlled(token: Token, ip: string, error: Option<ShareError>, asked: bool, now: Time)
      reads control
    {
      && Entry(token, ip) == FailuresAfter(old(Entry(token, ip)), error, now)
      && (forall k :: k != AccessKey(token, ip) ==> control.Entry(k) == old(control.Entry(k)))
      && control.download == if asked
                               then RateLimit.Serve(old(control.download), RateLimit.Request(AccessKey(token, ip), now))
                             else old(control.download)
    }

    /** The visitor's failures after a call: a wrong password given in time, on a share
        that is there and not locked, is refused as such and counts once more; an
        answer forgives; and a lock is what turns away exactly while it lasts. */
    twostate predicate Judged(known: bool, token: Token, password: string, ip: string, now: Time,
                              error: Option<ShareError>)
      requires known ==> token in access
      reads this, control
    {
      var wrong := !old(Locked(token, ip, now)) && known && Unexpired(access[token], now)
                   && PasswordWrong(access[token], password, matches);
      && (error == Some(PasswordInvalid) <==> wrong)
      && (wrong ==> Entry(token, ip) == Lockout.Record(old(Entry(token, ip)), now))
      && (error.None? ==> Entry(token, ip) == Lockout.NO_FAILURES)
      && (error == Some(PasswordLocked) ==> old(Locked(token, ip, now)))
    }

    // ---- shares ----

    /** The share's file is this visitor's to see or, where a slot is wanted, to have. */
    predicate MayHave(token: Token, password: string, needsSlot: bool, ip: string, now: Time)
      reads this, control, files.repo
    {
      && !Locked(token, ip, now) && token in Db().shares && token in access
      && Unexpired(access[token], now) && PasswordFits(access[token], password, matches)
      && (needsSlot ==> HasRoom(Db().shares[token].maxDownloads, Db().shares[token].downloads, 1))
      && CanBeOpened(Db(), Db().shares[token].file, scanning)
    }

    /** Where the share's file is stored. */
    function PathOf(token: Token): Path
      requires token in Db().shares && Db().shares[token].file in Db().files
      reads files.repo
    {
      Db().files[Db().shares[token].file].path
    }

    lemma AccessibleIff(token: Token, password: string, needsSlot: bool, ip: string, now: Time)
      requires token in Db().shares ==> token in access
      ensures var r := Accessible(token, password, needsSlot, ip, now);
              && (r.Ok? <==> MayHave(token, password, needsSlot, ip, now))
              && (r.Ok? ==> r.value.path == PathOf(token) && r.value.file == Db().shares[token].file)
              && (r.Ok? ==> r.value.objectId == Db().files[Db().shares[token].file].objectId)
              && (r == Err(PasswordInvalid) <==>
                    !Locked(token, ip, now) && token in Db().shares && Unexpired(access[token], now)
                    && PasswordWrong(access[token], password, matches))
              && (r == Err(PasswordLocked) <==> Locked(token, ip, now))
    {
      if token in Db().shares {
        var row := Db().shares[token];
        RefusalIff(access[token], row.maxDownloads, row.downloads, password, needsSlot, now, matches);
        AvailableIff(Db(), row.file, scanning);
      }
    }

    /** What the checks of a share let a visitor have. */
    function Checked(token: Token, password: string, needsSlot: bool, now: Time): Result<SharedFile, ShareError>
      requires token in Db().shares && token in access
      reads this, files.repo
    {
      var row := Db().shares[token];
      var refusal := Refusal(access[token], row.maxDownloads, row.downloads, password, needsSlot, now, matches);
      if refusal.Some? then Err(refusal.value) else Available(Db(), row.file, scanning)
    }

    /** The same behind the lock. */
    function Accessible(token: Token, password: string, needsSlot: bool, ip: string,
                        now: Time): Result<SharedFile, ShareError>
      requires token in Db().shares ==> token in access
      reads this, control, files.repo
    {
      if Locked(token, ip, now) then Err(PasswordLocked)
      else if token !in Db().shares then Err(ShareNotFound)
      else Checked(token, password, needsSlot, now)
    }

    /** validateShareAccess and the update of the failures that follows it. */
    method CheckAccess(token: Token, limit: Option<int>, downloads: int, password: string, needsSlot: bool, ip: string,
                       now: Time)
      returns (error: Option<ShareError>)
      requires token in access
      modifies control`password
      ensures error == Refusal(access[token], limit, downloads, password, needsSlot, now, matches)
      ensures error.None? <==>
                && Unexpired(access[token], now) && PasswordFits(access[token], password, matches)
                && (needsSlot ==> HasRoom(limit, downloads, 1))
      ensures error == Some(PasswordInvalid) <==>
                Unexpired(access[token], now) && PasswordWrong(access[token], password, matches)
      ensures Controlled(token, ip, error, false, now)
    {
      RefusalIff(access[token], limit, downloads, password, needsSlot, now, matches);
      var row := access[token];
      if row.expiresAt.Some? && row.expiresAt.value <= now {
        return Some(Expired);
      }
      if row.passwordHash != "" {
        if password == "" {
          return Some(PasswordRequired);
        }
        if !matches(row.passwordHash, password) {
          control.RecordPasswordFailure(token, ip, now);
          return Some(PasswordInvalid);
        }
      }
      if needsSlot && limit.Some? && downloads >= limit.value {
        return Some(LimitReached);
      }
      control.ClearPasswordFailures(token, ip);
      error := None;
    }

    /** FindActiveFileByShareToken and CheckFileObjectDownload. */
    method FindShared(f: FileId) returns (r: Result<SharedFile, ShareError>)
      ensures r == Available(Db(), f, scanning)
    {
      var db := Db();
      if !(f in db.files && db.files[f].status == Active && db.files[f].objectId in db.objects) {
        return Err(NoSuchFile);
      }
      var row := db.files[f];
      if scanning && !(row.objectId in db.scans && db.scans[row.objectId] == Clean) {
        return Err(Unavailable);
      }
      r := Ok(SharedFile(f, row.objectId, row.name, row.path, db.objects[row.objectId].hash));
    }

    /** The WHERE clause of ReserveDownload. */
    predicate HasSlot(token: Token, now: Time)
      reads this, files.repo
    {
      && token in Db().shares && token in access
      && var row := Db().shares[token];
         var slots := ShareSlots.Slots(false, row.maxDownloads, row.downloads, access[token].expiresAt);
         ShareSlots.Reserve(slots, 1, now).Some?
    }

    /** What findAccessibleFile and a save do with a share once it is found. */
    method CheckShare(token: Token, password: string, needsSlot: bool, ip: string, now: Time)
      returns (r: Result<SharedFile, ShareError>)
      requires token in Db().shares && token in access
      modifies control`password
      ensures r == Checked(token, password, needsSlot, now)
      ensures r.Ok? && needsSlot ==> HasSlot(token, now)
      ensures Controlled(token, ip, ErrorOf(r), false, now)
    {
      var row := files.repo.shares[token];
      var error := CheckAccess(token, row.maxDownloads, row.downloads, password, needsSlot, ip, now);
      if error.Some? {
        return Err(error.value);
      }
      r := FindShared(row.file);
    }

    /** The checks of a save, then the limiter. */
    method Admit(token: Token, password: string, ip: string, now: Time) returns (r: Result<SharedFile, ShareError>)
      requires token in Db().shares && token in access
      modifies control
      ensures var found := old(Checked(token, password, true, now));
              && Controlled(token, ip, ErrorOf(found), found.Ok?, now)
              && r == if found.Ok? && !old(Allowed(token, ip, now)) then Err(RateLimited) else found
      ensures r.Ok? ==> HasSlot(token, now)
    {
      r := CheckShare(token, password, true, ip, now);
      if r.Err? {
        return;
      }
      ghost var entries := control.password;
      var allowed := control.AllowDownload(token, ip, now);
      assert control.password == entries;
      if !allowed {
        r := Err(RateLimited);
      }
    }

    /** findAccessibleFile. */
    method FindAccessibleFile(token: Token, password: string, needsSlot: bool, ip: string, now: Time)
      returns (r: Result<SharedFile, ShareError>)
      requires token in Db().shares ==> token in access
      modifies control`password
      ensures r == old(Accessible(token, password, needsSlot, ip, now))
      ensures r.Ok? <==> old(MayHave(token, password, needsSlot, ip, now))
      ensures r.Ok? && needsSlot ==> HasSlot(token, now)
      ensures Controlled(token, ip, ErrorOf(r), false, now)
    {
      AccessibleIff(token, password, needsSlot, ip, now);
      var locked := control.PasswordLocked(token, ip, now);
      if locked {
        return Err(PasswordLocked);
      }
      if token !in files.repo.shares {
        return Err(ShareNotFound);
      }
      r := CheckShare(token, password, needsSlot, ip, now);
    }

    /** GetPublicFileFromIP: the file's public face behind the lock and the checks,
        for no slot and without the limiter. */
    method GetPublicFile(token: Token, password: string, ip: string, now: Time)
      returns (r: Result<PublicFile, ShareError>)
      requires token in Db().shares ==> token in access
      modifies control`password
      ensures var found := old(Accessible(token, password, false, ip, now));
              && Controlled(token, ip, ErrorOf(found), false, now)
              && if found.Err? then r == Err(found.error)
                 else token in Db().shares && Db().shares[token].file in Db().files
                      && r == Ok(Public(Db(), Db().shares[token].file))
      ensures r.Ok? <==> old(MayHave(token, password, false, ip, now))
      ensures r.Ok? ==> r.value.file == Db().shares[token].file && IsShown(Db(), r.value)
      ensures Judged(token in Db().shares, token, password, ip, now, ErrorOf(r))
      ensures Db() == old(Db())
    {
      AccessibleIff(token, password, false, ip, now);
      var found := FindAccessibleFile(token, password, false, ip, now);
      if found.Err? {
        return Err(found.error);
      }
      var f := files.repo.shares[token].file;
      var preview := ScanGate.FindPreview(Db(), f);
      r := Ok(PublicFile(f, found.value.name, Db().files[f].size, preview.Some?));
    }

    /** OpenPublicPreviewFromIP: the stored preview of the share's file, for no slot
        and without the limiter. */
    method OpenPublicPreview(token: Token, password: string, ip: string, now: Time)
      returns (r: Result<Content, ShareError>)
      requires token in Db().shares ==> token in access
      modifies control`password
      ensures var found := old(Accessible(token, password, false, ip, now));
              && Controlled(token, ip, ErrorOf(found), false, now)
              && if found.Err? then r == Err(found.error)
                 else if found.value.objectId !in Db().previews then r == Err(NoSuchFile)
                 else
                   var path := Db().previews[found.value.objectId];
                   r == if path in files.stored then Ok(files.stored[path]) else Err(NotStored)
      ensures r.Ok? <==>
                && old(MayHave(token, password, false, ip, now))
                && var o := Db().files[Db().shares[token].file].objectId;
                   o in Db().previews && Db().previews[o] in files.stored
      ensures Judged(token in Db().shares, token, password, ip, now, ErrorOf(r))
      ensures Db() == old(Db())
    {
      AccessibleIff(token, password, false, ip, now);
      var found := FindAccessibleFile(token, password, false, ip, now);
      if found.Err? {
        return Err(found.error);
      }
      var preview := ScanGate.FindPreview(Db(), files.repo.shares[token].file);
      if preview.None? {
        return Err(NoSuchFile);
      }
      if preview.value !in files.stored {
        return Err(NotStored);
      }
      r := Ok(files.stored[preview.value]);
    }

    /** ReserveDownload: one UPDATE. */
    method ReserveDownload(token: Token, now: Time) returns (reserved: bool)
      modifies files.repo`shares
      ensures reserved == old(HasSlot(token, now))
      ensures Db() == if reserved then ShareReserved(old(Db()), token) else old(Db())
    {
      var repo := files.repo;
      if token !in repo.shares || token !in access {
        return false;
      }
      var row := repo.shares[token];
      if access[token].expiresAt.Some? && access[token].expiresAt.value <= now {
        return false;
      }
      if row.maxDownloads.Some? && row.downloads >= row.maxDownloads.value {
        return false;
      }
      repo.shares := repo.shares[token := row.(downloads := row.downloads + 1)];
      reserved := true;
    }

    /** ReleaseDownloadReservation: one UPDATE. */
    method ReleaseDownload(token: Token)
      modifies files.repo`shares
      ensures Db() == ShareReleased(old(Db()), token)
    {
      var repo := files.repo;
      if token in repo.shares {
        var row := repo.shares[token];
        if row.downloads > 0 {
          repo.shares := repo.shares[token := row.(downloads := row.downloads - 1)];
        } else {
          assert repo.shares == repo.shares[token := row];
        }
      }
    }

    /** OpenForDownloadFromIP: content is handed out exactly to an unlocked, admitted
        visitor, against exactly one slot; a refusal takes none. */
    method OpenForDownload(token: Token, password: string, ip: string, now: Time)
      returns (r: Result<Content, ShareError>)
      requires token in Db().shares ==> token in access
      modifies control, files.repo`shares
      ensures var found := old(Accessible(token, password, true, ip, now));
              && Controlled(token, ip, ErrorOf(found), found.Ok?, now)
              && if found.Err? then r == Err(found.error)
                 else if !old(Allowed(token, ip, now)) then r == Err(RateLimited)
                 else if found.value.path !in files.stored then r == Err(NotStored)
                 else r == Ok(files.stored[found.value.path]) && Db() == ShareReserved(old(Db()), token)
      ensures r.Ok? <==>
                && old(MayHave(token, password, true, ip, now)) && old(Allowed(token, ip, now))
                && old(PathOf(token)) in files.stored
      ensures r.Ok? ==> r.value == files.stored[old(PathOf(token))] && OneSlotTaken(old(Db()), Db(), token)
      ensures Judged(token in old(Db()).shares, token, password, ip, now, ErrorOf(r))
      ensures r.Err? ==> Db() == old(Db())
    {
      AccessibleIff(token, password, true, ip, now);
      var found := FindAccessibleFile(token, password, true, ip, now);
      if found.Err? {
        return Err(found.error);
      }
      var allowed := control.AllowDownload(token, ip, now);
      if !allowed {
        return Err(RateLimited);
      }
      if found.value.path !in files.stored {
        return Err(NotStored);
      }
      var content := files.stored[found.value.path];
      var reserved := ReserveDownload(token, now);
      if !reserved {
        assert false;
        return Err(LimitReached);
      }
      r := Ok(content);
    }

    /** The end of a save: a slot, the instant upload, and the slot given back
        when the upload fails. */
    method SaveWithSlot(user: UserId, token: Token, shared: SharedFile, parent: Option<FolderId>, now: Time)
      returns (r: Result<FileId, ShareError>)
      requires files.repo.Valid() && HasSlot(token, now) && 0 <= Db().shares[token].downloads
      modifies files`cache, files.repo
      ensures var call := Usage.Instant(ShareReserved(old(Db()), token), user, parent, shared.name, shared.fileHash);
              if call.Ok? then r.Ok? && Db() == call.value else r == Err(SaveFailed(call.error))
      ensures r.Ok? ==> OneSlotTaken(old(Db()), Db(), token)
      ensures r.Err? ==> Db() == old(Db()) && files.cache == old(files.cache)
    {
      ghost var before := Db();
      var reserved := ReserveDownload(token, now);
      if !reserved {
        assert false;
        return Err(LimitReached);
      }
      SharesAside(before, Db());
      var saved := files.InstantUploadIntoFolder(user, parent, shared.name, shared.fileHash);
      if saved.Err? {
        ReleaseDownload(token);
        assert Db().shares == before.shares;
        return Err(SaveFailed(saved.error));
      }
      InstantLeavesShares(ShareReserved(before, token), user, parent, shared.name, shared.fileHash);
      TakesOneSlot(before, Db(), token);
      r := Ok(saved.value);
    }

    /** What a save sees of a share: the source looks for the share before the lock. */
    function Savable(token: Token, password: string, ip: string, now: Time): Result<SharedFile, ShareError>
      requires token in Db().shares ==> token in access
      reads this, control, files.repo
    {
      if token !in Db().shares then Err(ShareNotFound) else Accessible(token, password, true, ip, now)
    }

    /** Everything a save does before it reserves. */
    method AdmitToSave(token: Token, password: string, ip: string, now: Time)
      returns (r: Result<SharedFile, ShareError>)
      requires token in Db().shares ==> token in access
      modifies control
      ensures var found := old(Savable(token, password, ip, now));
              && Controlled(token, ip, ErrorOf(found), found.Ok?, now)
              && r == if found.Ok? && !old(Allowed(token, ip, now)) then Err(RateLimited) else found
      ensures r.Ok? <==> old(MayHave(token, password, true, ip, now)) && old(Allowed(token, ip, now))
      ensures r.Ok? ==> HasSlot(token, now)
      ensures r.Err? ==> !r.error.SaveFailed?
      ensures Judged(token in Db().shares, token, password, ip, now, ErrorOf(r))
    {
      AccessibleIff(token, password, true, ip, now);
      if token !in files.repo.shares {
        return Err(ShareNotFound);
      }
      var locked := control.PasswordLocked(token, ip, now);
      if locked {
        return Err(PasswordLocked);
      }
      r := Admit(token, password, ip, now);
    }

    /** SaveToUserFilesFromIP: one more file on the shared object against exactly one
        slot, or nothing changed: a failed save gives its slot back. */
    method SaveToUserFiles(user: UserId, token: Token, password: string, parent: Option<FolderId>, ip: string,
                           now: Time)
      returns (r: Result<FileId, ShareError>)
      requires files.repo.Valid() && (token in Db().shares ==> token in access && 0 <= Db().shares[token].downloads)
      modifies control, files`cache, files.repo
      ensures var found := old(Savable(token, password, ip, now));
              && Controlled(token, ip, ErrorOf(found), found.Ok?, now)
              && if found.Err? then r == Err(found.error)
                 else if !old(Allowed(token, ip, now)) then r == Err(RateLimited)
                 else
                   var reserved := ShareReserved(old(Db()), token);
                   var call := Usage.Instant(reserved, user, parent, found.value.name, found.value.fileHash);
                   if call.Ok? then r.Ok? && Db() == call.value else r == Err(SaveFailed(call.error))
      ensures r.Ok? || (r.Err? && r.error.SaveFailed?) <==>
                old(MayHave(token, password, true, ip, now)) && old(Allowed(token, ip, now))
      ensures r.Ok? ==> OneSlotTaken(old(Db()), Db(), token)
      ensures Judged(token in old(Db()).shares, token, password, ip, now, ErrorOf(r))
      ensures r.Err? ==> Db() == old(Db()) && files.cache == old(files.cache)
    {
      var shared := AdmitToSave(token, password, ip, now);
      if shared.Err? {
        return Err(shared.error);
      }
      r := SaveWithSlot(user, token, shared.value, parent, now);
    }

    // ---- collections ----

    /** The ids of a request without repeats. */
    method UniqueIds(requested: seq<int>) returns (r: Option<seq<int>>)
      ensures r.None? <==> exists id :: id in Collections.Members(requested) && id <= 0
      ensures r.Some? ==> Collections.Members(r.value) == Collections.Members(requested)
      ensures r.Some? ==> |r.value| == |Collections.Members(requested)|
      ensures r.Some? ==> forall k :: 0 <= k < |r.value| ==> r.value[k] > 0
    {
      var seen: set<int>, unique: seq<int> := {}, [];
      var i := 0;
      while i < |requested|
        invariant 0 <= i <= |requested| && seen == Collections.Members(requested[..i])
        invariant Collections.Members(unique) == seen && |unique| == |seen|
        invariant forall k :: 0 <= k < |unique| ==> unique[k] > 0
      {
        var id := requested[i];
        assert requested[..i + 1] == requested[..i] + [id];
        Collections.OneMoreMember(requested[..i], id);
        if id <= 0 {
          assert id in Collections.Members(requested);
          return None;
        }
        if id !in seen {
          Collections.OneMoreMember(unique, id);
          unique := unique + [id];
          seen := seen + {id};
        }
        i := i + 1;
      }
      assert requested[..i] == requested;
      r := Some(unique);
    }

    /** HasActiveFile for every id. */
    method AllHeld(user: UserId, ids: seq<int>) returns (held: bool)
      ensures held <==> forall k :: 0 <= k < |ids| ==> Collections.HasActiveFile(Db(), user, ids[k])
    {
      var i := 0;
      while i < |ids|
        invariant 0 <= i <= |ids| && forall k :: 0 <= k < i ==> Collections.HasActiveFile(Db(), user, ids[k])
      {
        if !Collections.HasActiveFile(Db(), user, ids[i]) {
          return false;
        }
        i := i + 1;
      }
      held := true;
    }

    /** The transaction: the collection's row, then one row per member, each refused
        when its file is gone. */
    method InsertCollection(user: UserId, ids: seq<int>, limit: Option<int>, token: Token) returns (inserted: bool)
      requires forall k :: 0 <= k < |ids| ==> ids[k] > 0
      modifies files.repo`collections
      ensures var members := Collections.MembersOf(Collections.Members(ids));
              var r := Collections.Insert(old(Db()), user, members, limit, token);
              inserted == r.Ok? && Db() == if inserted then r.value else old(Db())
    {
      var repo := files.repo;
      if token in repo.collections {
        return false;
      }
      var members: set<FileId> := {};
      var i := 0;
      while i < |ids|
        invariant 0 <= i <= |ids| && Db() == old(Db())
        invariant members == Collections.MembersOf(Collections.Members(ids[..i]))
        invariant forall f :: f in members ==> f in repo.files
      {
        var id: FileId := ids[i];
        assert ids[..i + 1] == ids[..i] + [ids[i]];
        Collections.OneMoreMember(ids[..i], ids[i]);
        if id !in repo.files {
          assert ids[i] in Collections.Members(ids);
          return false;
        }
        members := members + {id};
        i := i + 1;
      }
      assert ids[..i] == ids;
      repo.collections := repo.collections[token := CollectionRow(user, members, limit, 0)];
      inserted := true;
    }

    /** CreateCollection; expired stands for the test of the requested expiry. */
    method CreateCollection(user: UserId, requested: seq<int>, passwordHash: string, expiresAt: Time, expired: bool,
                            limit: Option<int>, token: Token)
      returns (r: Result<(), Collections.CollectionError>)
      modifies this`access, files.repo`collections
      ensures r.Ok? ==> Ok(Db()) == Collections.Create(old(Db()), user, requested, expired, limit, token)
                        && access == old(access)[token := Access(passwordHash, Some(expiresAt))]
      ensures r.Ok? <==>
                && (forall i :: 0 <= i < |requested| ==> Collections.HasActiveFile(old(Db()), user, requested[i]))
                && (exists i, j :: 0 <= i < j < |requested| && requested[i] != requested[j])
                && !expired && (limit.Some? ==> 0 < limit.value) && token !in old(Db()).collections
      ensures r.Ok? ==>
                && token in Db().collections && Db().collections[token].maxDownloads == limit
                && Db().collections[token].owner == user && Db().collections[token].downloads == 0
                && forall f ::
                     f in Db().collections[token].members <==> exists i :: 0 <= i < |requested| && requested[i] == f
      ensures r.Err? ==> Db() == old(Db()) && access == old(access)
                         && Collections.Create(Db(), user, requested, expired, limit, token) == Err(r.error)
    {
      Collections.CreatedCollection(Db(), user, requested, expired, limit, token);
      var unique := UniqueIds(requested);
      if unique.None? {
        return Err(Collections.NoSuchFile);
      }
      var ids := unique.value;
      if |ids| < 2 {
        return Err(Collections.TooFewFiles);
      }
      var held := AllHeld(user, ids);
      if !held {
        return Err(Collections.NoSuchFile);
      }
      if expired {
        return Err(Collections.ExpirationInvalid);
      }
      if limit.Some? && limit.value <= 0 {
        return Err(Collections.LimitInvalid);
      }
      var inserted := InsertCollection(user, ids, limit, token);
      if !inserted {
        return Err(Collections.Refused);
      }
      access := access[token := Access(passwordHash, Some(expiresAt))];
      r := Ok(());
    }

    /** What findAccessibleCollection refuses. */
    function CollectionRefusal(token: Token, password: string, ip: string, now: Time): Option<ShareError>
      requires token in Db().collections ==> token in access
      reads this, control, files.repo
    {
      if Locked(token, ip, now) then Some(PasswordLocked)
      else if token !in Db().collections then Some(ShareNotFound)
      else Refusal(access[token], None, 0, password, false, now, matches)
    }

    /** The collection is this visitor's to see. */
    predicate MayBrowse(token: Token, password: string, ip: string, now: Time)
      reads this, control, files.repo
    {
      && !Locked(token, ip, now) && token in Db().collections && token in access
      && Unexpired(access[token], now) && PasswordFits(access[token], password, matches)
    }

    lemma CollectionRefusalIff(token: Token, password: string, ip: string, now: Time)
      requires token in Db().collections ==> token in access
      ensures var refusal := CollectionRefusal(token, password, ip, now);
              && (refusal.None? <==> MayBrowse(token, password, ip, now))
              && (refusal == Some(PasswordInvalid) <==>
                    !Locked(token, ip, now) && token in Db().collections && Unexpired(access[token], now)
                    && PasswordWrong(access[token], password, matches))
              && (refusal == Some(PasswordLocked) <==> Locked(token, ip, now))
    {
      if token in Db().collections {
        RefusalIff(access[token], None, 0, password, false, now, matches);
      }
    }

    /** findAccessibleCollection. */
    method FindCollection(token: Token, password: string, ip: string, now: Time)
      returns (r: Result<CollectionRow, ShareError>)
      requires token in Db().collections ==> token in access
      modifies control`password
      ensures var refusal := old(CollectionRefusal(token, password, ip, now));
              && Controlled(token, ip, refusal, false, now)
              && if refusal.Some? then r == Err(refusal.value)
                 else token in Db().collections && r == Ok(Db().collections[token])
      ensures r.Ok? <==> old(MayBrowse(token, password, ip, now))
      ensures Judged(token in Db().collections, token, password, ip, now, ErrorOf(r))
    {
      CollectionRefusalIff(token, password, ip, now);
      var locked := control.PasswordLocked(token, ip, now);
      if locked {
        return Err(PasswordLocked);
      }
      if token !in files.repo.collections {
        return Err(ShareNotFound);
      }
      var error := CheckAccess(token, None, 0, password, false, ip, now);
      if error.Some? {
        return Err(error.value);
      }
      r := Ok(files.repo.collections[token]);
    }

    /** GetPublicCollectionFromIP: every active member once, in some order, for no
        slot and without the limiter. */
    method GetPublicCollection(token: Token, password: string, ip: string, now: Time)
      returns (r: Result<seq<PublicFile>, ShareError>)
      requires token in Db().collections ==> token in access
      modifies control`password
      ensures var refusal := old(CollectionRefusal(token, password, ip, now));
              && Controlled(token, ip, refusal, false, now)
              && if refusal.Some? then r == Err(refusal.value)
                 else
                   var shown := ActiveMembers(Db(), Db().collections[token].members);
                   if shown == {} then r == Err(ShareNotFound)
                   else r.Ok? && Listed(shown, FilesOf(r.value)) && ShownAsStored(Db(), r.value)
      ensures r.Ok? <==>
                && old(MayBrowse(token, password, ip, now))
                && exists f :: f in Db().collections[token].members && ScanGate.ActiveFile(Db(), f)
      ensures Judged(token in Db().collections, token, password, ip, now, ErrorOf(r))
      ensures Db() == old(Db())
    {
      CollectionRefusalIff(token, password, ip, now);
      var found := FindCollection(token, password, ip, now);
      if found.Err? {
        return Err(found.error);
      }
      var listing := ListFiles(found.value.members);
      if |listing| == 0 {
        assert FilesOf(listing) == [];
        assert ActiveMembers(Db(), found.value.members) == {};
        assert forall f :: f in found.value.members && ScanGate.ActiveFile(Db(), f) ==>
            f in ActiveMembers(Db(), found.value.members);
        return Err(ShareNotFound);
      }
      assert listing[0].file in FilesOf(listing);
      r := Ok(listing);
    }

    /** ListCollectionFiles, in some order. */
    method ListFiles(members: set<FileId>) returns (listing: seq<PublicFile>)
      ensures Listed(ActiveMembers(Db(), members), FilesOf(listing)) && ShownAsStored(Db(), listing)
    {
      var found := ActiveMembers(Db(), members);
      var left := found;
      listing := [];
      while left != {}
        invariant left <= found && Listed(found - left, FilesOf(listing)) && ShownAsStored(Db(), listing)
      {
        var f :| f in left;
        left := left - {f};
        OneMoreFile(listing, Public(Db(), f));
        listing := listing + [Public(Db(), f)];
      }
    }

    predicate CollectionLive(token: Token, now: Time)
      reads this
    {
      token in access && (access[token].expiresAt.Some? ==> now < access[token].expiresAt.value)
    }

    /** ReserveCollectionDownloads: one UPDATE. */
    method ReserveCollection(token: Token, n: nat, now: Time) returns (reserved: bool)
      modifies files.repo`collections
      ensures reserved <==> CollectionLive(token, now) && Collections.Reserve(old(Db()), token, n).Some?
      ensures Db() == if reserved then Collections.Reserve(old(Db()), token, n).value else old(Db())
    {
      var repo := files.repo;
      if n == 0 || token !in repo.collections || token !in access {
        return false;
      }
      if access[token].expiresAt.Some? && access[token].expiresAt.value <= now {
        return false;
      }
      var row := repo.collections[token];
      if row.maxDownloads.Some? && row.downloads + n > row.maxDownloads.value {
        return false;
      }
      repo.collections := repo.collections[token := row.(downloads := row.downloads + n)];
      reserved := true;
    }

    /** ReleaseCollectionDownloadReservations: one UPDATE. */
    method ReleaseCollection(token: Token, n: nat)
      modifies files.repo`collections
      ensures Db() == Collections.Released(old(Db()), token, n)
    {
      var repo := files.repo;
      if token in repo.collections {
        var row := repo.collections[token];
        if n == 0 {
          assert repo.collections == repo.collections[token := row];
          return;
        }
        var downloads := if row.downloads >= n then row.downloads - n else 0;
        repo.collections := repo.collections[token := row.(downloads := downloads)];
      }
    }

    /** FindCollectionFile and CheckFileObjectDownload. */
    function Member(token: Token, f: FileId): Result<SharedFile, ShareError>
      reads this, files.repo
    {
      if token !in Db().collections then Err(ShareNotFound)
      else if f !in Db().collections[token].members then Err(NoSuchFile)
      else Available(Db(), f, scanning)
    }

    /** A member of the collection is this visitor's to have. */
    predicate MayHaveMember(token: Token, f: FileId, password: string, ip: string, now: Time)
      reads this, control, files.repo
    {
      && MayBrowse(token, password, ip, now) && Allowed(token, ip, now)
      && f in Db().collections[token].members && CanBeOpened(Db(), f, scanning)
    }

    /** The answer to a visitor who wants a member, before it is opened. */
    function MemberAnswer(token: Token, f: FileId, password: string, ip: string,
                          now: Time): Result<SharedFile, ShareError>
      requires token in Db().collections ==> token in access
      reads this, control, files.repo
    {
      var refusal, member := CollectionRefusal(token, password, ip, now), Member(token, f);
      if refusal.Some? then Err(refusal.value)
      else if member.Ok? && !Allowed(token, ip, now) then Err(RateLimited)
      else member
    }

    lemma MemberAnswerIff(token: Token, f: FileId, password: string, ip: string, now: Time)
      requires token in Db().collections ==> token in access
      ensures var r, refusal := MemberAnswer(token, f, password, ip, now), CollectionRefusal(token, password, ip, now);
              && (r.Ok? <==> MayHaveMember(token, f, password, ip, now))
              && (r.Ok? ==> r.value.path == Db().files[f].path && refusal.None?)
              && (r == Err(PasswordInvalid) <==>
                    !Locked(token, ip, now) && token in Db().collections && Unexpired(access[token], now)
                    && PasswordWrong(access[token], password, matches))
              && (r == Err(PasswordInvalid) ==> refusal == Some(PasswordInvalid))
              && (r == Err(PasswordLocked) ==> Locked(token, ip, now))
              && (r.Err? ==> r.error != NotStored && (refusal.None? ==> r.error != LimitReached))
    {
      CollectionRefusalIff(token, password, ip, now);
      AvailableIff(Db(), f, scanning);
    }

    /** Everything a download from a collection does before it opens the member. */
    method AdmitMember(token: Token, f: FileId, password: string, ip: string, now: Time)
      returns (r: Result<SharedFile, ShareError>)
      requires token in Db().collections ==> token in access
      modifies control
      ensures var refusal, member := old(CollectionRefusal(token, password, ip, now)), old(Member(token, f));
              Controlled(token, ip, refusal, refusal.None? && member.Ok?, now)
      ensures r == old(MemberAnswer(token, f, password, ip, now))
      ensures r.Ok? ==> CollectionLive(token, now)
    {
      var found := FindCollection(token, password, ip, now);
      if found.Err? {
        return Err(found.error);
      }
      if f !in found.value.members {
        return Err(NoSuchFile);
      }
      r := FindShared(f);
      if r.Err? {
        return;
      }
      ghost var entries := control.password;
      var allowed := control.AllowDownload(token, ip, now);
      assert control.password == entries;
      if !allowed {
        r := Err(RateLimited);
      }
    }

    /** OpenCollectionFileForDownloadFromIP: a member's content against one slot of
        the collection. */
    method OpenCollectionFile(token: Token, f: FileId, password: string, ip: string, now: Time)
      returns (r: Result<Content, ShareError>)
      requires token in Db().collections ==> token in access
      modifies control, files.repo`collections
      ensures var refusal := old(CollectionRefusal(token, password, ip, now));
              var member := old(Member(token, f));
              && Controlled(token, ip, refusal, refusal.None? && member.Ok?, now)
              && if refusal.Some? then r == Err(refusal.value)
                 else if member.Err? then r == Err(member.error)
                 else if !old(Allowed(token, ip, now)) then r == Err(RateLimited)
                 else if member.value.path !in files.stored then r == Err(NotStored)
                 else
                   var reserved := Collections.Reserve(old(Db()), token, 1);
                   if reserved.None? then r == Err(LimitReached)
                   else r == Ok(files.stored[member.value.path]) && Db() == reserved.value
      ensures r.Ok? <==>
                && old(MayHaveMember(token, f, password, ip, now)) && old(Db().files[f].path) in files.stored
                && old(HasRoom(Db().collections[token].maxDownloads, Db().collections[token].downloads, 1))
      ensures r.Ok? ==> r.value == files.stored[old(Db().files[f].path)] && SlotsTaken(old(Db()), Db(), token, 1)
      ensures Judged(token in old(Db()).collections, token, password, ip, now, ErrorOf(r))
      ensures r.Err? ==> Db() == old(Db())
    {
      MemberAnswerIff(token, f, password, ip, now);
      var member := AdmitMember(token, f, password, ip, now);
      if member.Err? {
        return Err(member.error);
      }
      if member.value.path !in files.stored {
        return Err(NotStored);
      }
      var content := files.stored[member.value.path];
      var reserved := ReserveCollection(token, 1, now);
      if !reserved {
        return Err(LimitReached);
      }
      r := Ok(content);
    }

    /** ListCollectionSharedFiles, in some order. */
    method ListMembers(members: set<FileId>) returns (listing: seq<SharedFile>, ids: seq<FileId>)
      ensures |listing| == |ids| && Listed(SharedMembers(Db(), members), ids)
      ensures forall i :: 0 <= i < |ids| ==> Some(listing[i]) == Shared(Db(), ids[i])
    {
      var found := SharedMembers(Db(), members);
      var left := found;
      listing, ids := [], [];
      while left != {}
        invariant left <= found && |listing| == |ids| && Listed(found - left, ids)
        invariant forall i :: 0 <= i < |ids| ==> Some(listing[i]) == Shared(Db(), ids[i])
      {
        var f :| f in left;
        left := left - {f};
        listing, ids := listing + [Shared(Db(), f).value], ids + [f];
      }
    }

    method AllAvailable(listing: seq<SharedFile>) returns (available: bool)
      ensures available <==>
                !scanning || forall i :: 0 <= i < |listing| ==> ScanGate.MayDownload(Db(), listing[i].objectId)
    {
      var i := 0;
      while i < |listing|
        invariant 0 <= i <= |listing|
        invariant scanning ==> forall k :: 0 <= k < i ==> ScanGate.MayDownload(Db(), listing[k].objectId)
      {
        if scanning && !ScanGate.MayDownload(Db(), listing[i].objectId) {
          return false;
        }
        i := i + 1;
      }
      available := true;
    }

    /** The end of a collection save: the slots, the batch, and the slots given back
        when the batch fails. The ids are the members the inputs ask for. */
    method SaveBatch(user: UserId, token: Token, inputs: seq<Usage.Input>, parent: Option<FolderId>, now: Time,
                     ghost ids: seq<FileId>)
      returns (r: Result<seq<FileId>, ShareError>)
      requires files.repo.Valid() && token in Db().collections && 0 <= Db().collections[token].downloads
      requires CollectionLive(token, now) && AsksFor(Db(), ids, inputs) && ids != []
      modifies files`cache, files.repo
      ensures var reserved := Collections.Reserve(old(Db()), token, |inputs|);
              if reserved.None? then r == Err(LimitReached)
              else
                var call := Usage.Batch(reserved.value, user, parent, inputs);
                if call.Err? then r == Err(SaveFailed(call.error))
                else
                  && r.Ok? && |r.value| == |ids| && Db() == call.value
                  && Copies(old(Db()), Db().files, ids, user, parent)
                  && SlotsTaken(old(Db()), Db(), token, |ids|)
      ensures r == Err(LimitReached) <==>
                !old(HasRoom(Db().collections[token].maxDownloads, Db().collections[token].downloads, |ids|))
      ensures r.Err? ==> r.error == LimitReached || r.error.SaveFailed?
      ensures r.Err? ==> Db() == old(Db()) && files.cache == old(files.cache)
    {
      ghost var before := Db();
      var reserved := ReserveCollection(token, |inputs|, now);
      if !reserved {
        return Err(LimitReached);
      }
      SharesAside(before, Db());
      var saved := files.InstantUploadManyIntoFolder(user, parent, inputs);
      if saved.Err? {
        Collections.ReserveThenRelease(before, token, |inputs|);
        ReleaseCollection(token, |inputs|);
        return Err(SaveFailed(saved.error));
      }
      SavedMembers(before, token, user, parent, ids, inputs);
      r := Ok(saved.value);
    }

    /** What stops a save of a whole collection before its slots are reserved. */
    function SaveRefusal(token: Token, password: string, ip: string, now: Time): Option<ShareError>
      requires token in Db().collections ==> token in access
      reads this, control, files.repo
    {
      var refusal := CollectionRefusal(token, password, ip, now);
      if refusal.Some? then refusal
      else if exists f :: f in Db().collections[token].members && Available(Db(), f, scanning).Err?
        then Some(Unavailable)
      else if !Allowed(token, ip, now) then Some(RateLimited)
      else None
    }

    /** All members of the collection are this visitor's to have. */
    predicate MayHaveAll(token: Token, password: string, ip: string, now: Time)
      reads this, control, files.repo
    {
      && MayBrowse(token, password, ip, now) && Allowed(token, ip, now)
      && forall f :: f in Db().collections[token].members ==> CanBeOpened(Db(), f, scanning)
    }

    lemma SaveRefusalIff(token: Token, password: string, ip: string, now: Time)
      requires token in Db().collections ==> token in access
      ensures SaveRefusal(token, password, ip, now).None? <==> MayHaveAll(token, password, ip, now)
    {
      CollectionRefusalIff(token, password, ip, now);
      if MayBrowse(token, password, ip, now) {
        forall f | f in Db().collections[token].members
          ensures Available(Db(), f, scanning).Ok? <==> CanBeOpened(Db(), f, scanning)
        {
          AvailableIff(Db(), f, scanning);
        }
      }
    }

    /** The members, all of them, or the refusal of one that is not available. */
    method ListAvailable(members: set<FileId>) returns (r: Result<seq<SharedFile>, ShareError>, ids: seq<FileId>)
      requires 2 <= |members| && SharedMembers(Db(), members) == members
      ensures r == Err(Unavailable) <==> exists f :: f in members && Available(Db(), f, scanning).Err?
      ensures r.Err? ==> r.error == Unavailable
      ensures r.Ok? ==> |r.value| == |ids| && Listed(members, ids) && ids != []
      ensures r.Ok? ==> forall i :: 0 <= i < |ids| ==> Some(r.value[i]) == Shared(Db(), ids[i])
    {
      var listing;
      listing, ids := ListMembers(members);
      NoEmptyListing(members, ids);
      if |listing| == 0 {
        assert false;
        r := Err(Unavailable);
        return;
      }
      var available := AllAvailable(listing);
      assert forall i :: 0 <= i < |ids| ==> ids[i] in members;
      if !available {
        r := Err(Unavailable);
        return;
      }
      r := Ok(listing);
    }

    /** Everything a collection save does before it reserves: the listing shows every
        member, available to the last. */
    method Gather(token: Token, password: string, ip: string, now: Time)
      returns (r: Result<seq<SharedFile>, ShareError>, ids: seq<FileId>)
      requires MembersShared(Db()) && (token in Db().collections ==> token in access)
      modifies control
      ensures var refusal := old(SaveRefusal(token, password, ip, now));
              if refusal.Some? then r == Err(refusal.value)
              else
                && CollectionLive(token, now) && token in Db().collections
                && r.Ok? && |r.value| == |ids| && Listed(Db().collections[token].members, ids) && ids != []
                && forall i :: 0 <= i < |ids| ==> Some(r.value[i]) == Shared(Db(), ids[i])
      ensures Controlled(token, ip, old(CollectionRefusal(token, password, ip, now)),
                         old(SaveRefusal(token, password, ip, now)) in {None, Some(RateLimited)}, now)
      ensures r.Ok? <==> old(MayHaveAll(token, password, ip, now))
      ensures r.Err? ==> r.error != LimitReached && !r.error.SaveFailed?
      ensures Judged(token in Db().collections, token, password, ip, now, ErrorOf(r))
    {
      CollectionRefusalIff(token, password, ip, now);
      SaveRefusalIff(token, password, ip, now);
      ids := [];
      var found := FindCollection(token, password, ip, now);
      if found.Err? {
        r := Err(found.error);
        return;
      }
      r, ids := ListAvailable(found.value.members);
      if r.Err? {
        return;
      }
      ghost var entries := control.password;
      var allowed := control.AllowDownload(token, ip, now);
      assert control.password == entries;
      if !allowed {
        r := Err(RateLimited);
      }
    }

    /** SaveCollectionToUserFilesFromIP sees every member, and saves all of them
        against as many slots or changes no file and no slot. */
    method SaveCollection(user: UserId, token: Token, password: string, parent: Option<FolderId>, ip: string, now: Time)
      returns (r: Result<seq<FileId>, ShareError>, ghost ids: seq<FileId>, ghost inputs: seq<Usage.Input>)
      requires files.repo.Valid() && Collections.CollectionsOk(Db())
      requires forall t :: t in Db().collections ==> t in access && 0 <= Db().collections[t].downloads
      modifies control, files`cache, files.repo
      ensures var refusal := old(SaveRefusal(token, password, ip, now));
              if refusal.Some? then r == Err(refusal.value)
              else
                && Listed(old(Db()).collections[token].members, ids) && AsksFor(old(Db()), ids, inputs)
                && var reserved := Collections.Reserve(old(Db()), token, |ids|);
                   if reserved.None? then r == Err(LimitReached)
                   else
                     var call := Usage.Batch(reserved.value, user, parent, inputs);
                     if call.Err? then r == Err(SaveFailed(call.error))
                     else
                       && r.Ok? && |r.value| == |ids| && Db() == call.value
                       && Copies(old(Db()), Db().files, ids, user, parent)
                       && SlotsTaken(old(Db()), Db(), token, |ids|)
      ensures Controlled(token, ip, old(CollectionRefusal(token, password, ip, now)),
                         old(SaveRefusal(token, password, ip, now)) in {None, Some(RateLimited)}, now)
      ensures r.Ok? || r.error.SaveFailed? <==>
                && old(MayHaveAll(token, password, ip, now))
                && old(HasRoom(Db().collections[token].maxDownloads, Db().collections[token].downloads, |ids|))
      ensures Judged(token in old(Db()).collections, token, password, ip, now, ErrorOf(r))
      ensures r.Err? ==> Db() == old(Db()) && files.cache == old(files.cache)
    {
      AllMembersShared(Db());
      var gathered, listed := Gather(token, password, ip, now);
      ids, inputs := listed, [];
      if gathered.Err? {
        r := Err(gathered.error);
        return;
      }
      var wanted := Wanted(gathered.value);
      inputs := wanted;
      r := SaveBatch(user, token, wanted, parent, now, ids);
    }
  }

  function FilesOf(listing: seq<PublicFile>): (ids: seq<FileId>)
    ensures |ids| == |listing| && forall i :: 0 <= i < |ids| ==> ids[i] == listing[i].file
  {
    seq(|listing|, i requires 0 <= i < |listing| => listing[i].file)
  }

  /** The public face is the stored file's: its name, its size, whether its object has a
      preview. */
  predicate IsShown(db: Database, shown: PublicFile) {
    && shown.file in db.files
    && var row := db.files[shown.file];
       shown.name == row.name && shown.size == row.size && (shown.hasPreview <==> row.objectId in db.previews)
  }

  predicate ShownAsStored(db: Database, listing: seq<PublicFile>) {
    forall i :: 0 <= i < |listing| ==> IsShown(db, listing[i])
  }

  lemma OneMoreFile(listing: seq<PublicFile>, last: PublicFile)
    ensures FilesOf(listing + [last]) == FilesOf(listing) + [last.file]
  {
  }

  function Wanted(listing: seq<SharedFile>): (inputs: seq<Usage.Input>)
    ensures |inputs| == |listing|
    ensures forall i :: 0 <= i < |listing| ==> inputs[i] == Usage.Input(listing[i].name, listing[i].fileHash)
  {
    seq(|listing|, i requires 0 <= i < |listing| => Usage.Input(listing[i].name, listing[i].fileHash))
  }

  lemma NoEmptyListing(members: set<FileId>, listing: seq<FileId>)
    requires Listed(members, listing) && |members| >= 2
    ensures listing != []
  {
    assert members != {};
    var f :| f in members;
    assert f in listing;
  }

  /** Collections of two or more files that the join all finds. */
  predicate MembersShared(db: Database) {
    forall t :: t in db.collections ==>
      2 <= |db.collections[t].members| && SharedMembers(db, db.collections[t].members) == db.collections[t].members
  }

  lemma AllMembersShared(db: Database)
    requires DbOk(db) && Collections.CollectionsOk(db)
    ensures MembersShared(db)
  {
    forall t | t in db.collections
      ensures 2 <= |db.collections[t].members|
      ensures SharedMembers(db, db.collections[t].members) == db.collections[t].members
    {
      assert Collections.CollectionOk(db, db.collections[t]);
      EveryMemberShared(db, t);
    }
  }

  /** The request a collection save makes for its members. */
  ghost predicate AsksFor(db: Database, ids: seq<FileId>, inputs: seq<Usage.Input>) {
    && |inputs| == |ids|
    && forall i :: 0 <= i < |ids| ==>
         ids[i] in db.files && Shared(db, ids[i]).Some?
         && inputs[i] == Usage.Input(Shared(db, ids[i]).value.name, Shared(db, ids[i]).value.fileHash)
  }

  predicate IsCopy(copy: FileRow, member: FileRow, user: UserId, parent: Option<FolderId>) {
    && copy.owner == user && copy.parent == parent && copy.status == Active
    && copy.objectId == member.objectId && copy.name == member.name && copy.size == member.size
    && copy.path == member.path && copy.contentType == member.contentType
  }

  lemma ItemIsMember(db: Database, ids: seq<FileId>, inputs: seq<Usage.Input>, i: nat, user: UserId,
                     parent: Option<FolderId>)
    requires DbOk(db) && AsksFor(db, ids, inputs) && Usage.FindAll(db, inputs).Ok? && i < |ids|
    ensures |Usage.FindAll(db, inputs).value| == |ids|
    ensures var item := Usage.FindAll(db, inputs).value[i];
            IsCopy(NewFile(user, parent, item.name, item.snapshot), db.files[ids[i]], user, parent)
  {
    FileCalls.FoundInOrder(db, inputs, i);
    assert FileAgrees(db.objects, db.files[ids[i]]);
  }

  lemma BatchAppends(db: Database, user: UserId, parent: Option<FolderId>, inputs: seq<Usage.Input>)
    requires DbOk(db) && Usage.Batch(db, user, parent, inputs).Ok?
    ensures FilesAppended(db, Usage.Batch(db, user, parent, inputs).value, user, parent,
                          Usage.FindAll(db, inputs).value)
    ensures |Usage.FindAll(db, inputs).value| == |inputs| && forall f :: f in db.files ==> f < db.nextFile
  {
    Usage.FoundAll(db, inputs);
    AddReferencesAppend(db, user, parent, Usage.FindAll(db, inputs).value);
  }

  /** The files a batch has made are copies of the members. */
  ghost predicate Copies(db: Database, files': map<FileId, FileRow>, ids: seq<FileId>, user: UserId,
                         parent: Option<FolderId>) {
    && (forall f :: f in files' <==> f in db.files || db.nextFile <= f < db.nextFile + |ids|)
    && (forall f :: f in db.files ==> f < db.nextFile && files'[f] == db.files[f])
    && (forall i :: 0 <= i < |ids| ==> ids[i] in db.files)
    && (forall f :: db.nextFile <= f < db.nextFile + |ids| ==>
          f in files' && IsCopy(files'[f], db.files[ids[f - db.nextFile]], user, parent))
  }

  lemma AppendedAreCopies(db: Database, db': Database, user: UserId, parent: Option<FolderId>, ids: seq<FileId>,
                          items: seq<NamedObject>)
    requires FilesAppended(db, db', user, parent, items) && |items| == |ids|
    requires forall f :: f in db.files ==> f < db.nextFile
    requires forall i :: 0 <= i < |ids| ==>
               && ids[i] in db.files
               && IsCopy(NewFile(user, parent, items[i].name, items[i].snapshot), db.files[ids[i]], user, parent)
    ensures Copies(db, db'.files, ids, user, parent)
  {
  }

  /** A collection save adds exactly one file per member, in the order asked for,
      on the member's own object and under its name and size, and touches no other
      file. */
  lemma SaveAllCopiesEveryMember(db: Database, user: UserId, parent: Option<FolderId>, ids: seq<FileId>,
                                 inputs: seq<Usage.Input>)
    requires DbOk(db) && AsksFor(db, ids, inputs) && Usage.Batch(db, user, parent, inputs).Ok?
    ensures Copies(db, Usage.Batch(db, user, parent, inputs).value.files, ids, user, parent)
  {
    var items := Usage.FindAll(db, inputs).value;
    BatchAppends(db, user, parent, inputs);
    forall i | 0 <= i < |ids|
      ensures IsCopy(NewFile(user, parent, items[i].name, items[i].snapshot), db.files[ids[i]], user, parent)
    {
      ItemIsMember(db, ids, inputs, i, user, parent);
    }
    AppendedAreCopies(db, Usage.Batch(db, user, parent, inputs).value, user, parent, ids, items);
  }

  /** The collection's count went up by n; no other collection and no share moved. */
  predicate SlotsTaken(db: Database, db': Database, token: Token, n: nat) {
    && token in db.collections && db'.shares == db.shares && db'.collections.Keys == db.collections.Keys
    && (forall t :: t in db.collections && t != token ==> db'.collections[t] == db.collections[t])
    && db'.collections[token] == db.collections[token].(downloads := db.collections[token].downloads + n)
  }

  lemma SlotsAreTaken(db: Database, token: Token, n: nat, user: UserId, parent: Option<FolderId>,
                      inputs: seq<Usage.Input>)
    requires Collections.Reserve(db, token, n).Some?
    requires Usage.Batch(Collections.Reserve(db, token, n).value, user, parent, inputs).Ok?
    ensures SlotsTaken(db, Usage.Batch(Collections.Reserve(db, token, n).value, user, parent, inputs).value, token, n)
  {
    BatchLeavesShares(Collections.Reserve(db, token, n).value, user, parent, inputs);
  }

  /** Reserving first changes nothing of what the batch makes of the members. */
  lemma CopiesDespiteCollections(db: Database, db': Database, user: UserId, parent: Option<FolderId>,
                                 ids: seq<FileId>, inputs: seq<Usage.Input>)
    requires DbOk(db) && AsksFor(db, ids, inputs) && db' == db.(collections := db'.collections)
    requires Usage.Batch(db', user, parent, inputs).Ok?
    ensures Copies(db, Usage.Batch(db', user, parent, inputs).value.files, ids, user, parent)
  {
    SharesAside(db, db');
    SameMembersAsked(db, db', ids, inputs);
    SaveAllCopiesEveryMember(db', user, parent, ids, inputs);
    SameCopies(db, db', Usage.Batch(db', user, parent, inputs).value.files, ids, user, parent);
  }

  lemma SameCopies(db: Database, db': Database, files': map<FileId, FileRow>, ids: seq<FileId>, user: UserId,
                   parent: Option<FolderId>)
    requires Copies(db', files', ids, user, parent) && db'.files == db.files && db'.nextFile == db.nextFile
    ensures Copies(db, files', ids, user, parent)
  {
  }

  /** What a save of the members against as many slots leaves. */
  lemma SavedMembers(db: Database, token: Token, user: UserId, parent: Option<FolderId>, ids: seq<FileId>,
                     inputs: seq<Usage.Input>)
    requires DbOk(db) && AsksFor(db, ids, inputs) && Collections.Reserve(db, token, |ids|).Some?
    requires Usage.Batch(Collections.Reserve(db, token, |ids|).value, user, parent, inputs).Ok?
    ensures var db' := Usage.Batch(Collections.Reserve(db, token, |ids|).value, user, parent, inputs).value;
            Copies(db, db'.files, ids, user, parent) && SlotsTaken(db, db', token, |ids|)
  {
    CopiesDespiteCollections(db, Collections.Reserve(db, token, |ids|).value, user, parent, ids, inputs);
    SlotsAreTaken(db, token, |ids|, user, parent, inputs);
  }

  lemma SameMembersAsked(db: Database, db': Database, ids: seq<FileId>, inputs: seq<Usage.Input>)
    requires AsksFor(db, ids, inputs) && db'.files == db.files && db'.objects == db.objects
    ensures AsksFor(db', ids, inputs)
  {
  }

  lemma BatchLeavesShares(db: Database, user: UserId, parent: Option<FolderId>, inputs: seq<Usage.Input>)
    requires Usage.Batch(db, user, parent, inputs).Ok?
    ensures var db' := Usage.Batch(db, user, parent, inputs).value;
            db'.shares == db.shares && db'.collections == db.collections
  {
    AddReferencesShape(db, user, parent, Usage.FindAll(db, inputs).value);
  }

  /** The join finds every member of a whole collection. */
  lemma EveryMemberShared(db: Database, token: Token)
    requires DbOk(db) && Collections.CollectionsOk(db) && token in db.collections
    ensures SharedMembers(db, db.collections[token].members) == db.collections[token].members
  {
    assert Collections.CollectionOk(db, db.collections[token]);
    forall f | f in db.collections[token].members
      ensures Shared(db, f).Some?
    {
      assert FileAgrees(db.objects, db.files[f]);
    }
  }

  lemma InstantLeavesShares(db: Database, user: UserId, parent: Option<FolderId>, name: string, hash: Digest)
    requires Usage.Instant(db, user, parent, name, hash).Ok?
    ensures var db' := Usage.Instant(db, user, parent, name, hash).value;
            db'.shares == db.shares && db'.collections == db.collections
  {
  }

  lemma TakesOneSlot(db: Database, db': Database, token: Token)
    requires token in db.shares && db'.shares == ShareReserved(db, token).shares && db'.collections == db.collections
    ensures OneSlotTaken(db, db', token)
  {
  }

  /** The share tables are no part of the consistency of the file tables. */
  lemma SharesAside(db: Database, db': Database)
    requires DbOk(db) && db' == db.(shares := db'.shares, collections := db'.collections)
    ensures DbOk(db')
  {
  }
}
