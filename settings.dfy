/** The account settings page: the profile it shows and its actions to rename, change the
    avatar, change the password and delete the account. Password verification and hashing,
    the upload and the clock are inputs. */
module Settings {
  import opened Wrappers
  import opened Text
  import opened Web
  import opened Db

  const AVATAR_LIMIT := 5 * 1024 * 1024

  /** The columns the page selects: `id`, `email`, `name`, `credits`, `avatarUrl`. */
  datatype ProfileView = ProfileView(id: Id, email: string, name: Option<string>, credits: int, avatarUrl: Option<string>)

  function View(u: User): ProfileView {
    ProfileView(u.id, u.email, u.name, u.credits, u.avatarUrl)
  }

  /** `load`: the signed-in user's profile, or a redirect home when there is no user or no
      such row. */
  function LoadProfile(s: State, user: Option<LocalUser>): (r: Result<ProfileView, PageRedirect>)
    ensures r.Failure? ==> r.error == PageRedirect(302, "/")
    ensures r.Success? <==> user.Some? && HasUser(s, user.value.id)
    ensures r.Success? ==> r.value == View(UserOf(s, user.value.id)) && r.value.id == user.value.id
  {
    if user.None? then Failure(PageRedirect(302, "/"))
    else match UserIndex(s.users, user.value.id)
      case None => Failure(PageRedirect(302, "/"))
      case Some(i) => Success(View(s.users[i]))
  }

  function SetUser(s: State, i: nat, u: User): State
    requires i < |s.users|
  {
    s.(users := s.users[i := u])
  }

  // ----- updateProfile -----

  /** `updateProfile`: signed in, then a non-empty name; only the `name` column changes,
      and a missing row makes the update throw (500). */
  function UpdateProfile(s: State, user: Option<LocalUser>, name: Option<string>): (r: Result<(State, ProfileView), Fail>)
    ensures r.Failure? ==> r.error in {Fail(401, "Unauthorized"), Fail(400, "Name is required"), Fail(500, "Failed to update profile")}
    ensures r.Failure? && r.error.status == 401 <==> user.None?
    ensures r.Failure? && r.error.status == 400 <==> user.Some? && !Truthy(name)
    ensures r.Success? <==> user.Some? && Truthy(name) && HasUser(s, user.value.id)
    ensures r.Success? ==>
      var i := UserIndex(s.users, user.value.id).value;
      && r.value.0 == SetUser(s, i, s.users[i].(name := name))
      && r.value.1 == View(s.users[i].(name := name))
  {
    if user.None? then Failure(Fail(401, "Unauthorized"))
    else if !Truthy(name) then Failure(Fail(400, "Name is required"))
    else match UserIndex(s.users, user.value.id)
      case None => Failure(Fail(500, "Failed to update profile"))
      case Some(i) =>
        var u := s.users[i].(name := name);
        Success((SetUser(s, i, u), View(u)))
  }

  // ----- updateAvatar -----

  /** `avatars/<userId>-<timestamp>.<text after the last '.' of the file name>`. */
  function AvatarKey(userId: Id, now: nat, fileName: string): string {
    "avatars/" + NatToString(userId) + "-" + NatToString(now) + "." + AfterLast(fileName, '.')
  }

  /** The key keeps the file's extension, and its folder and owner prefix. */
  lemma AvatarKeyShape(userId: Id, now: nat, fileName: string)
    ensures StartsWith(AvatarKey(userId, now, fileName), "avatars/" + NatToString(userId) + "-")
    ensures AfterLast(AvatarKey(userId, now, fileName), '.') == AfterLast(fileName, '.')
  {
    var prefix := "avatars/" + NatToString(userId) + "-";
    var key := AvatarKey(userId, now, fileName);
    assert key == prefix + (NatToString(now) + "." + AfterLast(fileName, '.'));
    assert key[..|prefix|] == prefix;
    assert key == (prefix + NatToString(now)) + ['.'] + AfterLast(fileName, '.');
    AfterLastOfSuffix(prefix + NatToString(now), '.', AfterLast(fileName, '.'));
  }

  /** The dashboard's file checks: present and non-empty, an `image/` type, at most 5 MiB. */
  function AvatarFileCheck(file: Option<UploadedFile>): (r: Option<Fail>)
    ensures r.None? <==> file.Some? && file.value.Size() != 0 && StartsWith(file.value.mimeType, "image/")
                         && file.value.Size() <= AVATAR_LIMIT
  {
    if file.None? || file.value.Size() == 0 then Some(Fail(400, "No file uploaded"))
    else if !StartsWith(file.value.mimeType, "image/") then Some(Fail(400, "File must be an image"))
    else if file.value.Size() > AVATAR_LIMIT then Some(Fail(400, "File size must be less than 5MB"))
    else None
  }

  /** The upload and the write once the file is accepted: `upload` maps a key to the URL the
      store returns, `None` when the upload throws; a missing row makes the update throw. */
  function StoreAvatar(s: State, userId: Id, file: UploadedFile, now: nat, upload: string -> Option<string>): (r: Result<State, Fail>)
    ensures r.Failure? ==> r.error == Fail(500, "Failed to update avatar")
    ensures r.Success? <==> upload(AvatarKey(userId, now, file.name)).Some? && HasUser(s, userId)
    ensures r.Success? ==>
      var i := UserIndex(s.users, userId).value;
      r.value == SetUser(s, i, s.users[i].(avatarUrl := upload(AvatarKey(userId, now, file.name))))
  {
    match upload(AvatarKey(userId, now, file.name))
    case None => Failure(Fail(500, "Failed to update avatar"))
    case Some(url) =>
      match UserIndex(s.users, userId)
      case None => Failure(Fail(500, "Failed to update avatar"))
      case Some(i) => Success(SetUser(s, i, s.users[i].(avatarUrl := Some(url))))
  }

  /** `updateAvatar` on the dashboard. */
  function UpdateAvatar(s: State, user: Option<LocalUser>, file: Option<UploadedFile>, now: nat,
                        upload: string -> Option<string>): (r: Result<State, Fail>)
    ensures r.Failure? && r.error.status == 401 <==> user.None?
    ensures user.Some? && AvatarFileCheck(file).Some? ==> r == Failure(AvatarFileCheck(file).value)
    ensures user.Some? && AvatarFileCheck(file).None? ==> r == StoreAvatar(s, user.value.id, file.value, now, upload)
  {
    if user.None? then Failure(Fail(401, "Unauthorized"))
    else match AvatarFileCheck(file)
      case Some(f) => Failure(f)
      case None => StoreAvatar(s, user.value.id, file.value, now, upload)
  }

  /** Exactly 5 MiB of image passes the checks; one byte more does not. */
  lemma AvatarSizeBoundary(name: string, mimeType: string, bytes: seq<byte>)
    requires StartsWith(mimeType, "image/")
    ensures |bytes| == AVATAR_LIMIT ==> AvatarFileCheck(Some(UploadedFile(name, mimeType, bytes))).None?
    ensures |bytes| == AVATAR_LIMIT + 1 ==>
      AvatarFileCheck(Some(UploadedFile(name, mimeType, bytes))) == Some(Fail(400, "File size must be less than 5MB"))
  {
  }

  // ----- Passwords -----

  predicate LegacyHash(hash: string) {
    StartsWith(hash, "$2a$") || StartsWith(hash, "$2b$")
  }

  /** The current-password check: the runtime's verifier first, and the bcrypt comparison
      only for a `$2a$`/`$2b$` hash the verifier rejected; a match there marks the hash for
      migration. */
  function CheckPassword(plain: string, hash: string, verify: (string, string) -> bool,
                         compare: (string, string) -> bool): (r: (bool, bool))
    ensures r.0 <==> verify(plain, hash) || (LegacyHash(hash) && compare(plain, hash))
    ensures r.1 <==> !verify(plain, hash) && LegacyHash(hash) && compare(plain, hash)
    ensures !LegacyHash(hash) ==> r == (verify(plain, hash), false)
  {
    var isValid := verify(plain, hash);
    if !isValid && LegacyHash(hash) then
      var legacy := compare(plain, hash);
      (legacy, legacy)
    else (isValid, false)
  }

  /** The form checks of a password change, in order: all three fields, the confirmation,
      and, when `checkLength` holds, a new password of at least six characters. */
  function PasswordFields(current: Option<string>, newPassword: Option<string>, confirm: Option<string>,
                          checkLength: bool): (r: Option<Fail>)
    ensures r == Some(Fail(400, "All fields are required")) <==>
      !Truthy(current) || !Truthy(newPassword) || !Truthy(confirm)
    ensures r == Some(Fail(400, "New passwords do not match")) <==>
      Truthy(current) && Truthy(newPassword) && Truthy(confirm) && newPassword != confirm
    ensures r == Some(Fail(400, "Password must be at least 6 characters")) <==>
      Truthy(current) && Truthy(newPassword) && newPassword == confirm && checkLength && |newPassword.value| < 6
    ensures r.None? <==>
      Truthy(current) && Truthy(newPassword) && newPassword == confirm && (checkLength ==> |newPassword.value| >= 6)
  {
    if !Truthy(current) || !Truthy(newPassword) || !Truthy(confirm) then Some(Fail(400, "All fields are required"))
    else if newPassword != confirm then Some(Fail(400, "New passwords do not match"))
    else if checkLength && |newPassword.value| < 6 then Some(Fail(400, "Password must be at least 6 characters"))
    else None
  }

  /** The row, its stored hash and the current password, then the write of the new hash;
      `throwMessage` is the answer when the row has no password and the check throws. */
  function ReplacePassword(s: State, userId: Id, current: string, check: (string, string) -> bool,
                           hashed: string, throwMessage: string): (r: Result<State, Fail>)
    ensures r.Failure? ==> r.error in {Fail(404, "User not found"), Fail(500, throwMessage), Fail(400, "Incorrect current password")}
    ensures r == Failure(Fail(404, "User not found")) <==> !HasUser(s, userId)
    ensures HasUser(s, userId) && UserOf(s, userId).password.None? ==> r == Failure(Fail(500, throwMessage))
    ensures HasUser(s, userId) && UserOf(s, userId).password.Some? && !check(current, UserOf(s, userId).password.value) ==>
      r == Failure(Fail(400, "Incorrect current password"))
    ensures r.Success? <==> HasUser(s, userId) && UserOf(s, userId).password.Some?
                            && check(current, UserOf(s, userId).password.value)
    ensures r.Success? ==>
      var i := UserIndex(s.users, userId).value;
      r.value == SetUser(s, i, s.users[i].(password := Some(hashed)))
  {
    match UserIndex(s.users, userId)
    case None => Failure(Fail(404, "User not found"))
    case Some(i) =>
      if s.users[i].password.None? then Failure(Fail(500, throwMessage))
      else if !check(current, s.users[i].password.value) then Failure(Fail(400, "Incorrect current password"))
      else Success(SetUser(s, i, s.users[i].(password := Some(hashed))))
  }

  /** The dashboard's verifier with its bcrypt fallback, as one check. */
  function DashboardCheck(verify: (string, string) -> bool, compare: (string, string) -> bool): (string, string) -> bool {
    (plain, hash) => CheckPassword(plain, hash, verify, compare).0
  }

  /** `updatePassword` on the dashboard: the form checks with a six-character minimum, then
      the row and the current password; only then is the new hash written. A row without a
      password makes the check throw (500). */
  function UpdatePassword(s: State, user: Option<LocalUser>, current: Option<string>, newPassword: Option<string>,
                          confirm: Option<string>, verify: (string, string) -> bool,
                          compare: (string, string) -> bool, hashed: string): (r: Result<State, Fail>)
    ensures r.Failure? && r.error.status == 401 <==> user.None?
    ensures user.Some? && PasswordFields(current, newPassword, confirm, true).Some? ==>
      r == Failure(PasswordFields(current, newPassword, confirm, true).value)
    ensures r.Success? <==>
      && user.Some? && PasswordFields(current, newPassword, confirm, true).None?
      && HasUser(s, user.value.id) && UserOf(s, user.value.id).password.Some?
      && CheckPassword(current.value, UserOf(s, user.value.id).password.value, verify, compare).0
    ensures r.Success? ==>
      var i := UserIndex(s.users, user.value.id).value;
      r.value == SetUser(s, i, s.users[i].(password := Some(hashed)))
  {
    if user.None? then Failure(Fail(401, "Unauthorized"))
    else match PasswordFields(current, newPassword, confirm, true)
      case Some(f) => Failure(f)
      case None => ReplacePassword(s, user.value.id, current.value, DashboardCheck(verify, compare), hashed,
                                   "Failed to update password")
  }

  /** A new password of five characters is refused before the database is read. */
  lemma ShortPasswordRefused(s: State, user: LocalUser, current: string, newPassword: string,
                             verify: (string, string) -> bool, compare: (string, string) -> bool, hashed: string)
    requires current != "" && newPassword != "" && |newPassword| < 6
    ensures UpdatePassword(s, Some(user), Some(current), Some(newPassword), Some(newPassword), verify, compare, hashed)
            == Failure(Fail(400, "Password must be at least 6 characters"))
  {
  }

  // ----- deleteAccount -----

  function WithoutUser(s: State, i: nat): State
    requires i < |s.users|
  {
    s.(users := s.users[..i] + s.users[i + 1..])
  }

  /** `deleteAccount`: a given password, the row, and a verified password; then the row is
      deleted and the answer is a redirect home. */
  function DeleteAccount(s: State, user: Option<LocalUser>, password: Option<string>,
                         verify: (string, string) -> bool, compare: (string, string) -> bool): (r: Result<(State, PageRedirect), Fail>)
    ensures r.Failure? && r.error.status == 401 <==> user.None?
    ensures r.Failure? && r.error == Fail(400, "Password is required") <==> user.Some? && !Truthy(password)
    ensures user.Some? && Truthy(password) && !HasUser(s, user.value.id) ==> r == Failure(Fail(404, "User not found"))
    ensures user.Some? && Truthy(password) && HasUser(s, user.value.id) && UserOf(s, user.value.id).password.None? ==>
      r == Failure(Fail(500, "Failed to delete account"))
    ensures user.Some? && Truthy(password) && HasUser(s, user.value.id) && UserOf(s, user.value.id).password.Some?
            && !CheckPassword(password.value, UserOf(s, user.value.id).password.value, verify, compare).0 ==>
      r == Failure(Fail(400, "Incorrect password"))
    ensures r.Success? <==>
      && user.Some? && Truthy(password) && HasUser(s, user.value.id) && UserOf(s, user.value.id).password.Some?
      && CheckPassword(password.value, UserOf(s, user.value.id).password.value, verify, compare).0
    ensures r.Success? ==>
      r.value == (WithoutUser(s, UserIndex(s.users, user.value.id).value), PageRedirect(302, "/"))
  {
    if user.None? then Failure(Fail(401, "Unauthorized"))
    else if !Truthy(password) then Failure(Fail(400, "Password is required"))
    else match UserIndex(s.users, user.value.id)
      case None => Failure(Fail(404, "User not found"))
      case Some(i) =>
        if s.users[i].password.None? then Failure(Fail(500, "Failed to delete account"))
        else if !CheckPassword(password.value, s.users[i].password.value, verify, compare).0 then
          Failure(Fail(400, "Incorrect password"))
        else Success((WithoutUser(s, i), PageRedirect(302, "/")))
  }

  /** Deleting removes exactly the signed-in user's row: every other user stays, in order,
      and the deleted id is gone when ids are unique. */
  lemma DeleteRemovesOnlyTheUser(s: State, user: Option<LocalUser>, password: Option<string>,
                                 verify: (string, string) -> bool, compare: (string, string) -> bool)
    requires DeleteAccount(s, user, password, verify, compare).Success?
    requires forall a, b :: 0 <= a < b < |s.users| ==> s.users[a].id != s.users[b].id
    ensures var s' := DeleteAccount(s, user, password, verify, compare).value.0;
      && s' == s.(users := s'.users)
      && |s'.users| == |s.users| - 1
      && !HasUser(s', user.value.id)
      && forall v :: v != user.value.id && HasUser(s, v) ==> HasUser(s', v) && UserOf(s', v) == UserOf(s, v)
  {
    var i := UserIndex(s.users, user.value.id).value;
    var s' := WithoutUser(s, i);
    forall j | 0 <= j < |s'.users|
      ensures s'.users[j].id != user.value.id
    {
      if j < i {
        assert s'.users[j] == s.users[j];
      } else {
        assert s'.users[j] == s.users[j + 1];
      }
    }
    forall v | v != user.value.id && HasUser(s, v)
      ensures HasUser(s', v) && UserOf(s', v) == UserOf(s, v)
    {
      var k := UserIndex(s.users, v).value;
      var k' := if k < i then k else k - 1;
      assert s'.users[k'] == s.users[k];
      FirstIndexAfterRemoval(s.users, i, v, k);
    }
  }

  /** With unique ids, the row of `v` after removing row `i` is found where it moved. */
  lemma FirstIndexAfterRemoval(users: seq<User>, i: nat, v: Id, k: nat)
    requires i < |users| && k < |users| && k != i && users[k].id == v
    requires forall a, b :: 0 <= a < b < |users| ==> users[a].id != users[b].id
    ensures UserIndex(users[..i] + users[i + 1..], v) == Some(if k < i then k else k - 1)
  {
    var rest := users[..i] + users[i + 1..];
    var k' := if k < i then k else k - 1;
    assert rest[k'] == users[k];
    forall f | 0 <= f < |rest| && f != k'
      ensures rest[f].id != v
    {
      var orig := if f < i then f else f + 1;
      assert rest[f] == users[orig];
    }
  }

  // ----- The actions over the database -----

  class SettingsPage {
    const db: Database

    constructor (db: Database)
      ensures this.db == db
    {
      this.db := db;
    }

    method UpdateProfileAction(user: Option<LocalUser>, name: Option<string>) returns (r: Result<ProfileView, Fail>)
      modifies db
      ensures Applied(UpdateProfile(old(db.Snapshot()), user, name), r, db.Snapshot(), old(db.Snapshot()))
    {
      if user.None? {
        return Failure(Fail(401, "Unauthorized"));
      }
      if !Truthy(name) {
        return Failure(Fail(400, "Name is required"));
      }
      var i := UserIndex(db.users, user.value.id);
      if i.None? {
        return Failure(Fail(500, "Failed to update profile"));
      }
      var u := db.users[i.value].(name := name);
      db.users := db.users[i.value := u];
      r := Success(View(u));
    }

    method UpdateAvatarAction(user: Option<LocalUser>, file: Option<UploadedFile>, now: nat,
                              upload: string -> Option<string>) returns (r: Result<(), Fail>)
      modifies db
      ensures match UpdateAvatar(old(db.Snapshot()), user, file, now, upload)
        case Success(s') => r == Success(()) && db.Snapshot() == s'
        case Failure(e) => r == Failure(e) && db.Snapshot() == old(db.Snapshot())
    {
      if user.None? {
        return Failure(Fail(401, "Unauthorized"));
      }
      var bad := AvatarFileCheck(file);
      if bad.Some? {
        return Failure(bad.value);
      }
      var url := upload(AvatarKey(user.value.id, now, file.value.name));
      if url.None? {
        return Failure(Fail(500, "Failed to update avatar"));
      }
      var i := UserIndex(db.users, user.value.id);
      if i.None? {
        return Failure(Fail(500, "Failed to update avatar"));
      }
      db.users := db.users[i.value := db.users[i.value].(avatarUrl := url)];
      r := Success(());
    }

    method UpdatePasswordAction(user: Option<LocalUser>, current: Option<string>, newPassword: Option<string>,
                                confirm: Option<string>, verify: (string, string) -> bool,
                                compare: (string, string) -> bool, hashed: string) returns (r: Result<(), Fail>)
      modifies db
      ensures match UpdatePassword(old(db.Snapshot()), user, current, newPassword, confirm, verify, compare, hashed)
        case Success(s') => r == Success(()) && db.Snapshot() == s'
        case Failure(e) => r == Failure(e) && db.Snapshot() == old(db.Snapshot())
    {
      if user.None? {
        return Failure(Fail(401, "Unauthorized"));
      }
      var bad := PasswordFields(current, newPassword, confirm, true);
      if bad.Some? {
        return Failure(bad.value);
      }
      var i := UserIndex(db.users, user.value.id);
      if i.None? {
        return Failure(Fail(404, "User not found"));
      }
      var stored := db.users[i.value].password;
      if stored.None? {
        return Failure(Fail(500, "Failed to update password"));
      }
      var isValid := verify(current.value, stored.value);
      var needsMigration := false;
      if !isValid && LegacyHash(stored.value) {
        isValid := compare(current.value, stored.value);
        if isValid {
          needsMigration := true;
        }
      }
      assert (isValid, needsMigration) == CheckPassword(current.value, stored.value, verify, compare);
      if !isValid {
        return Failure(Fail(400, "Incorrect current password"));
      }
      db.users := db.users[i.value := db.users[i.value].(password := Some(hashed))];
      r := Success(());
    }

    method DeleteAccountAction(user: Option<LocalUser>, password: Option<string>,
                               verify: (string, string) -> bool, compare: (string, string) -> bool)
      returns (r: Result<PageRedirect, Fail>)
      modifies db
      ensures Applied(DeleteAccount(old(db.Snapshot()), user, password, verify, compare), r, db.Snapshot(), old(db.Snapshot()))
    {
      if user.None? {
        return Failure(Fail(401, "Unauthorized"));
      }
      if !Truthy(password) {
        return Failure(Fail(400, "Password is required"));
      }
      var i := UserIndex(db.users, user.value.id);
      if i.None? {
        return Failure(Fail(404, "User not found"));
      }
      var stored := db.users[i.value].password;
      if stored.None? {
        return Failure(Fail(500, "Failed to delete account"));
      }
      var isValid := verify(password.value, stored.value);
      if !isValid && LegacyHash(stored.value) {
        isValid := compare(password.value, stored.value);
      }
      if !isValid {
        return Failure(Fail(400, "Incorrect password"));
      }
      db.users := db.users[..i.value] + db.users[i.value + 1..];
      r := Success(PageRedirect(302, "/"));
    }
  }
}
