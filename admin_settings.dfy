/** The administrator's own settings page. Its load admits administrators only, but its
    actions need only a signed-in user; it shares the dashboard page's profile update and
    avatar storage, checks nothing of the avatar beyond its presence, and changes the
    password with bcrypt alone and no minimum length. */
module AdminSettings {
  import opened Wrappers
  import opened Text
  import opened Web
  import opened Db
  import Settings

  /** `load`: non-administrators go to their own settings page, a missing row goes home. */
  function LoadProfile(s: State, user: Option<LocalUser>): (r: Result<Settings.ProfileView, PageRedirect>)
    ensures r == Failure(PageRedirect(302, "/dashboard/settings")) <==> !IsAdmin(user)
    ensures r == Failure(PageRedirect(302, "/")) <==> IsAdmin(user) && !HasUser(s, user.value.id)
    ensures r.Success? ==> IsAdmin(user) && r.value == Settings.View(UserOf(s, user.value.id))
  {
    if !IsAdmin(user) then Failure(PageRedirect(302, "/dashboard/settings"))
    else Settings.LoadProfile(s, user)
  }

  /** `updateAvatar` here: only an absent or empty file is refused. */
  function UpdateAvatar(s: State, user: Option<LocalUser>, file: Option<UploadedFile>, now: nat,
                        upload: string -> Option<string>): (r: Result<State, Fail>)
    ensures r.Failure? && r.error.status == 401 <==> user.None?
    ensures r == Failure(Fail(400, "No file uploaded")) <==> user.Some? && (file.None? || file.value.Size() == 0)
    ensures user.Some? && file.Some? && file.value.Size() != 0 ==>
      r == Settings.StoreAvatar(s, user.value.id, file.value, now, upload)
  {
    if user.None? then Failure(Fail(401, "Unauthorized"))
    else if file.None? || file.value.Size() == 0 then Failure(Fail(400, "No file uploaded"))
    else Settings.StoreAvatar(s, user.value.id, file.value, now, upload)
  }

  /** `updatePassword` here: the field and confirmation checks, then bcrypt's comparison
      against the stored hash; a row without a password makes bcrypt throw (500). */
  function UpdatePassword(s: State, user: Option<LocalUser>, current: Option<string>, newPassword: Option<string>,
                          confirm: Option<string>, compare: (string, string) -> bool, hashed: string): (r: Result<State, Fail>)
    ensures r.Failure? && r.error.status == 401 <==> user.None?
    ensures user.Some? && Settings.PasswordFields(current, newPassword, confirm, false).Some? ==>
      r == Failure(Settings.PasswordFields(current, newPassword, confirm, false).value)
    ensures r.Success? <==>
      && user.Some? && Settings.PasswordFields(current, newPassword, confirm, false).None?
      && HasUser(s, user.value.id) && UserOf(s, user.value.id).password.Some?
      && compare(current.value, UserOf(s, user.value.id).password.value)
    ensures r.Success? ==>
      var i := UserIndex(s.users, user.value.id).value;
      r.value == Settings.SetUser(s, i, s.users[i].(password := Some(hashed)))
  {
    if user.None? then Failure(Fail(401, "Unauthorized"))
    else match Settings.PasswordFields(current, newPassword, confirm, false)
      case Some(f) => Failure(f)
      case None => Settings.ReplacePassword(s, user.value.id, current.value, compare, hashed, "Failed to update password")
  }

  /** The actions admit any signed-in user: a non-administrator whose load is redirected
      can still rename themself and change their avatar and password here. */
  lemma {:induction false} ActionsSkipRoleCheck(s: State, user: LocalUser, name: string, file: UploadedFile, now: nat,
                                               upload: string -> Option<string>, current: string, newPassword: string,
                                               compare: (string, string) -> bool, hashed: string)
    requires user.role != Some("ADMIN") && HasUser(s, user.id)
    requires name != "" && file.Size() != 0 && upload(Settings.AvatarKey(user.id, now, file.name)).Some?
    requires current != "" && newPassword != ""
    requires UserOf(s, user.id).password.Some? && compare(current, UserOf(s, user.id).password.value)
    ensures LoadProfile(s, Some(user)) == Failure(PageRedirect(302, "/dashboard/settings"))
    ensures Settings.UpdateProfile(s, Some(user), Some(name)).Success?
    ensures UpdateAvatar(s, Some(user), Some(file), now, upload).Success?
    ensures UpdatePassword(s, Some(user), Some(current), Some(newPassword), Some(newPassword), compare, hashed).Success?
  {
    assert Truthy(Some(name)) && Truthy(Some(current)) && Truthy(Some(newPassword));
  }

  /** Where the two pages differ: a large non-image file, refused on the dashboard, is
      stored here; a one-character password, refused on the dashboard, is accepted here. */
  lemma {:induction false} LooserThanDashboard(s: State, user: LocalUser, file: UploadedFile, now: nat,
                                              upload: string -> Option<string>, current: string, newPassword: string,
                                              verify: (string, string) -> bool, compare: (string, string) -> bool,
                                              hashed: string)
    requires HasUser(s, user.id) && upload(Settings.AvatarKey(user.id, now, file.name)).Some?
    requires file.Size() != 0 && !StartsWith(file.mimeType, "image/")
    requires current != "" && |newPassword| == 1
    requires UserOf(s, user.id).password.Some? && compare(current, UserOf(s, user.id).password.value)
    ensures Settings.UpdateAvatar(s, Some(user), Some(file), now, upload) == Failure(Fail(400, "File must be an image"))
    ensures UpdateAvatar(s, Some(user), Some(file), now, upload).Success?
    ensures Settings.UpdatePassword(s, Some(user), Some(current), Some(newPassword), Some(newPassword), verify, compare, hashed)
            == Failure(Fail(400, "Password must be at least 6 characters"))
    ensures UpdatePassword(s, Some(user), Some(current), Some(newPassword), Some(newPassword), compare, hashed).Success?
  {
    assert Truthy(Some(current)) && Truthy(Some(newPassword));
  }

  class AdminSettingsPage {
    const db: Database

    constructor (db: Database)
      ensures this.db == db
    {
      this.db := db;
    }

    method UpdateAvatarAction(user: Option<LocalUser>, file: Option<UploadedFile>, now: nat,
                              upload: string -> Option<string>) returns (r: Result<(), Fail>)
      modifies db
      ensures match UpdateAvatar(old(db.Snapshot()), user, file, now, upload)
        case Success(s') => r == Success(()) && db.Snapshot() == s'
        case Failure(e) => r == Failure(e) && db.Snapshot() == old(db.Snapshot())
    {
      if user.None? {
        return Failure(Fail(401, "Unauthorized"));
      }
      if file.None? || file.value.Size() == 0 {
        return Failure(Fail(400, "No file uploaded"));
      }
      var url := upload(Settings.AvatarKey(user.value.id, now, file.value.name));
      if url.None? {
        return Failure(Fail(500, "Failed to update avatar"));
      }
      var i := UserIndex(db.users, user.value.id);
      if i.None? {
        return Failure(Fail(500, "Failed to update avatar"));
      }
      db.users := db.users[i.value := db.users[i.value].(avatarUrl := url)];
      r := Success(());
    }

    method UpdatePasswordAction(user: Option<LocalUser>, current: Option<string>, newPassword: Option<string>,
                                confirm: Option<string>, compare: (string, string) -> bool, hashed: string)
      returns (r: Result<(), Fail>)
      modifies db
      ensures match UpdatePassword(old(db.Snapshot()), user, current, newPassword, confirm, compare, hashed)
        case Success(s') => r == Success(()) && db.Snapshot() == s'
        case Failure(e) => r == Failure(e) && db.Snapshot() == old(db.Snapshot())
    {
      if user.None? {
        return Failure(Fail(401, "Unauthorized"));
      }
      var bad := Settings.PasswordFields(current, newPassword, confirm, false);
      if bad.Some? {
        return Failure(bad.value);
      }
      var i := UserIndex(db.users, user.value.id);
      if i.None? {
        return Failure(Fail(404, "User not found"));
      }
      var stored := db.users[i.value].password;
      if stored.None? {
        return Failure(Fail(500, "Failed to update password"));
      }
      if !compare(current.value, stored.value) {
        return Failure(Fail(400, "Incorrect current password"));
      }
      db.users := db.users[i.value := db.users[i.value].(password := Some(hashed))];
      r := Success(());
    }
  }
}
