/** Account registration, password login and Google sign-in. Password hashing and
    comparison, token minting, the avatar download-and-upload and the clock are inputs. */
module Auth {
  import opened Wrappers
  import opened Text
  import opened Db
  import Credits

  const SIGNUP_CREDITS := 15
  const SESSION_MS := 1000 * 60 * 60 * 24 * 7

  datatype AuthError = EmailExists | InvalidCredentials | WeakPassword | MissingFields

  /** The message each error is thrown with. */
  function Message(e: AuthError): string {
    match e
    case EmailExists => "Email already registered"
    case InvalidCredentials => "Invalid email or password"
    case WeakPassword => "Password must be at least 6 characters"
    case MissingFields => "Please fill in all fields"
  }

  /** A user row without its `password` column, as every response carries it. */
  datatype PublicUser = PublicUser(
    id: Id,
    email: string,
    name: Option<string>,
    role: string,
    credits: int,
    googleId: Option<string>,
    avatarUrl: Option<string>,
    isBanned: bool,
    createdAt: int)

  /** `const { password, ...userWithoutPassword } = user`. */
  function WithoutPassword(u: User): (p: PublicUser)
    ensures p.id == u.id && p.email == u.email && p.name == u.name && p.role == u.role
    ensures p.credits == u.credits && p.googleId == u.googleId && p.avatarUrl == u.avatarUrl
    ensures p.isBanned == u.isBanned && p.createdAt == u.createdAt
  {
    PublicUser(u.id, u.email, u.name, u.role, u.credits, u.googleId, u.avatarUrl, u.isBanned, u.createdAt)
  }

  /** Two rows that differ only in the password give the same response. */
  lemma ResponseHidesPassword(u: User, password: Option<string>)
    ensures WithoutPassword(u.(password := password)) == WithoutPassword(u)
  {
  }

  /** `findUnique({ where: { email } })`: the row with that email (emails are unique). */
  function EmailIndex(users: seq<User>, email: string): (r: Option<nat>)
    ensures r.Some? ==> r.value < |users| && users[r.value].email == email
    ensures r.None? ==> forall j :: 0 <= j < |users| ==> users[j].email != email
  {
    if users == [] then None
    else if users[0].email == email then Some(0)
    else match EmailIndex(users[1..], email)
      case None => None
      case Some(k) => Some(k + 1)
  }

  /** The row `user.create` inserts; `role` is the column's default. */
  function NewUser(s: State, email: string, name: Option<string>, password: Option<string>,
                   googleId: Option<string>, role: string, now: int): User {
    User(s.nextId, email, name, password, role, SIGNUP_CREDITS, googleId, None, false, now)
  }

  function Insert(s: State, u: User): State {
    s.(users := s.users + [u], nextId := s.nextId + 1)
  }

  // ----- register -----

  /** `register`: the checks in order (both fields, then the length, then an unused email),
      before anything is written; then one new user with 15 credits and the hashed
      password. */
  function RegisterResult(s: State, email: Option<string>, password: Option<string>, hashed: string,
                    role: string, now: int): (r: Result<(State, PublicUser), AuthError>)
    ensures r == Failure(MissingFields) <==> !Truthy(email) || !Truthy(password)
    ensures r == Failure(WeakPassword) <==> Truthy(email) && Truthy(password) && |password.value| < 6
    ensures r == Failure(EmailExists) <==>
      Truthy(email) && Truthy(password) && |password.value| >= 6 && EmailIndex(s.users, email.value).Some?
    ensures r.Success? ==>
      var u := NewUser(s, email.value, None, Some(hashed), None, role, now);
      && r.value.0 == Insert(s, u)
      && r.value.1 == WithoutPassword(u)
      && r.value.1.credits == SIGNUP_CREDITS
  {
    if !Truthy(email) || !Truthy(password) then Failure(MissingFields)
    else if |password.value| < 6 then Failure(WeakPassword)
    else if EmailIndex(s.users, email.value).Some? then Failure(EmailExists)
    else
      var u := NewUser(s, email.value, None, Some(hashed), None, role, now);
      Success((Insert(s, u), WithoutPassword(u)))
  }

  /** A second registration with the same email is refused. */
  lemma RegisterTwiceFails(s: State, email: Option<string>, password: Option<string>, hashed: string,
                           hashed2: string, role: string, now: int, later: int)
    requires RegisterResult(s, email, password, hashed, role, now).Success?
    ensures RegisterResult(RegisterResult(s, email, password, hashed, role, now).value.0, email, password, hashed2, role, later)
         == Failure(EmailExists)
  {
    var s' := RegisterResult(s, email, password, hashed, role, now).value.0;
    assert s'.users[|s'.users| - 1].email == email.value;
  }

  // ----- login -----

  datatype LoginResponse = LoginResponse(user: PublicUser, accessToken: string, refreshToken: string)

  /** The password check: one comparison, repeated only for a hash with the `$2a$` or `$2b$`
      prefix when the first one failed. */
  function PasswordCheck(plain: string, hash: string, compare: (string, string) -> bool): (r: (bool, nat))
    ensures r.0 == compare(plain, hash)
    ensures r.1 == 2 <==> !compare(plain, hash) && (StartsWith(hash, "$2a$") || StartsWith(hash, "$2b$"))
    ensures r.1 == 1 || r.1 == 2
  {
    var isValid := compare(plain, hash);
    if !isValid && hash != "" && (StartsWith(hash, "$2a$") || StartsWith(hash, "$2b$")) then
      (compare(plain, hash), 2)
    else (isValid, 1)
  }

  /** A session issued at `now` for the refresh token. */
  function NewSession(token: string, userId: Id, now: int): (r: Session)
    ensures r.expiresAt - now == 604800000
  {
    Session(token, userId, now + SESSION_MS)
  }

  /** `login`: an unknown email, an account without a password and a wrong password all
      fail with the same error; a match stores a session lasting seven days. */
  function LoginResult(s: State, email: string, password: string, compare: (string, string) -> bool,
                 accessToken: string, refreshToken: string, now: int): (r: Result<(State, LoginResponse), AuthError>)
    ensures r.Failure? ==> r.error == InvalidCredentials
    ensures r.Success? <==>
      && EmailIndex(s.users, email).Some?
      && Truthy(s.users[EmailIndex(s.users, email).value].password)
      && compare(password, s.users[EmailIndex(s.users, email).value].password.value)
    ensures r.Success? ==>
      var u := s.users[EmailIndex(s.users, email).value];
      && r.value.0 == s.(sessions := s.sessions + [NewSession(refreshToken, u.id, now)])
      && r.value.1 == LoginResponse(WithoutPassword(u), accessToken, refreshToken)
  {
    match EmailIndex(s.users, email)
    case None => Failure(InvalidCredentials)
    case Some(i) =>
      var u := s.users[i];
      if !Truthy(u.password) then Failure(InvalidCredentials)
      else if !PasswordCheck(password, u.password.value, compare).0 then Failure(InvalidCredentials)
      else Success((s.(sessions := s.sessions + [NewSession(refreshToken, u.id, now)]),
                    LoginResponse(WithoutPassword(u), accessToken, refreshToken)))
  }

  /** A login changes only the session table, by one row. */
  lemma LoginAddsOneSession(s: State, email: string, password: string, compare: (string, string) -> bool,
                            accessToken: string, refreshToken: string, now: int)
    requires LoginResult(s, email, password, compare, accessToken, refreshToken, now).Success?
    ensures var s' := LoginResult(s, email, password, compare, accessToken, refreshToken, now).value.0;
      && s' == s.(sessions := s'.sessions)
      && |s'.sessions| == |s.sessions| + 1
      && s'.sessions[|s.sessions|].id == refreshToken
      && s'.sessions[|s.sessions|].expiresAt == now + 604800000
  {
  }

  /** A registered account logs in with the password it was registered with, when the hash
      matches it. */
  lemma RegisteredUserCanLogIn(s: State, email: string, password: string, hashed: string, role: string, now: int,
                               compare: (string, string) -> bool, accessToken: string, refreshToken: string, later: int)
    requires RegisterResult(s, Some(email), Some(password), hashed, role, now).Success?
    requires hashed != "" && compare(password, hashed)
    ensures LoginResult(RegisterResult(s, Some(email), Some(password), hashed, role, now).value.0, email, password,
                  compare, accessToken, refreshToken, later).Success?
  {
    var s' := RegisterResult(s, Some(email), Some(password), hashed, role, now).value.0;
    var i := |s.users|;
    assert s'.users[i].email == email;
    if EmailIndex(s'.users, email) != Some(i) {
      FirstEmailIsNew(s.users, s'.users[i], email);
    }
  }

  /** An email absent from the table is found at the row appended with it. */
  lemma {:induction false} FirstEmailIsNew(users: seq<User>, u: User, email: string)
    requires EmailIndex(users, email).None? && u.email == email
    ensures EmailIndex(users + [u], email) == Some(|users|)
  {
    if users != [] {
      assert (users + [u])[1..] == users[1..] + [u];
      FirstEmailIsNew(users[1..], u, email);
    }
  }

  // ----- Sign-up credits and the ledger -----

  /** Rows none of which names `v` add up to 0 for `v`. */
  lemma {:induction false} SumForNone(rows: seq<CreditTx>, v: Id)
    requires forall k :: 0 <= k < |rows| ==> rows[k].userId != v
    ensures Credits.SumFor(rows, v) == 0
  {
    if rows != [] {
      SumForNone(rows[..|rows| - 1], v);
    }
  }

  /** A user inserted under a fresh id with the sign-up credits has a balance of 15 and no
      ledger row, so their balance is not the sum of their rows. */
  lemma NewUserBypassesLedger(s: State, u: User)
    requires u.id == s.nextId && u.credits == SIGNUP_CREDITS
    requires !HasUser(s, u.id)
    requires forall k :: 0 <= k < |s.txs| ==> s.txs[k].userId != u.id
    ensures Credits.Balance(Insert(s, u), u.id) == SIGNUP_CREDITS
    ensures Credits.SumFor(Insert(s, u).txs, u.id) == 0
    ensures !Credits.Balanced(Insert(s, u), u.id)
  {
    var users := Insert(s, u).users;
    assert users[|s.users|] == u;
    SumForNone(s.txs, u.id);
  }

  /** `register` grants its 15 credits without a ledger row: for a fresh id with no rows,
      the new account's balance is not the sum of its ledger rows. */
  lemma RegisterBypassesLedger(s: State, email: Option<string>, password: Option<string>, hashed: string,
                               role: string, now: int)
    requires RegisterResult(s, email, password, hashed, role, now).Success?
    requires !HasUser(s, s.nextId)
    requires forall k :: 0 <= k < |s.txs| ==> s.txs[k].userId != s.nextId
    ensures !Credits.Balanced(RegisterResult(s, email, password, hashed, role, now).value.0, s.nextId)
  {
    NewUserBypassesLedger(s, NewUser(s, email.value, None, Some(hashed), None, role, now));
  }

  // ----- Google sign-in -----

  /** `findFirst({ where: { OR: [{ googleId }, { email }] } })`, in table order. */
  function OAuthIndex(users: seq<User>, googleId: string, email: string): (r: Option<nat>)
    ensures r.Some? ==> r.value < |users| && (users[r.value].googleId == Some(googleId) || users[r.value].email == email)
    ensures r.None? ==> forall j :: 0 <= j < |users| ==> users[j].googleId != Some(googleId) && users[j].email != email
  {
    if users == [] then None
    else if users[0].googleId == Some(googleId) || users[0].email == email then Some(0)
    else match OAuthIndex(users[1..], googleId, email)
      case None => None
      case Some(k) => Some(k + 1)
  }

  /** The fields `handleOAuthUser` writes to an existing user (`updateData`). */
  datatype OAuthUpdate = OAuthUpdate(googleId: Option<string>, avatarUrl: Option<string>)

  predicate IsGoogleAvatar(avatarUrl: Option<string>) {
    avatarUrl.Some? && Includes(avatarUrl.value, "googleusercontent.com")
  }

  /** The update for an existing user: the Google id only if none is stored; the avatar
      only when one is offered and the stored one is missing or a Google URL, taking the
      uploaded copy, or else the offered URL only when no avatar is stored. `upload` is what
      the download-and-upload returns (`None` on failure). */
  function UpdateFor(u: User, googleId: string, avatarUrl: Option<string>, upload: Option<string>): OAuthUpdate {
    var g := if !Truthy(u.googleId) then Some(googleId) else None;
    var a :=
      if Truthy(avatarUrl) && (!Truthy(u.avatarUrl) || IsGoogleAvatar(u.avatarUrl)) then
        if Truthy(upload) then upload
        else if !Truthy(u.avatarUrl) then avatarUrl
        else None
      else None;
    OAuthUpdate(g, a)
  }

  predicate UpdateIssued(d: OAuthUpdate) {
    d.googleId.Some? || d.avatarUrl.Some?
  }

  function ApplyUpdate(u: User, d: OAuthUpdate): User {
    var u1 := if d.googleId.Some? then u.(googleId := d.googleId) else u;
    if d.avatarUrl.Some? then u1.(avatarUrl := d.avatarUrl) else u1
  }

  /** The avatar a new user ends with: the uploaded copy, else the offered URL. */
  function NewUserAvatar(avatarUrl: Option<string>, upload: Option<string>): Option<string> {
    if !Truthy(avatarUrl) then None else if Truthy(upload) then upload else avatarUrl
  }

  /** `handleOAuthUser`: find the user by Google id or email, create one with 15 credits or
      update the found one, then store a seven-day session. */
  function OAuthResult(s: State, email: string, name: Option<string>, avatarUrl: Option<string>,
                           googleId: string, upload: Option<string>, role: string,
                           accessToken: string, refreshToken: string, now: int): (r: (State, LoginResponse))
    ensures r.0 == s.(users := r.0.users, sessions := r.0.sessions, nextId := r.0.nextId)
    ensures r.0.nextId == if OAuthIndex(s.users, googleId, email).None? then s.nextId + 1 else s.nextId
    ensures r.1.accessToken == accessToken && r.1.refreshToken == refreshToken
    ensures |r.0.sessions| == |s.sessions| + 1 && r.0.sessions[..|s.sessions|] == s.sessions
    ensures r.0.sessions[|s.sessions|] == NewSession(refreshToken, r.1.user.id, now)
    ensures OAuthIndex(s.users, googleId, email).None? ==>
      var u := NewUser(s, email, name, None, Some(googleId), role, now).(avatarUrl := NewUserAvatar(avatarUrl, upload));
      && r.0.users == s.users + [u]
      && r.1.user == WithoutPassword(u)
      && r.1.user.credits == SIGNUP_CREDITS
    ensures OAuthIndex(s.users, googleId, email).Some? ==>
      var i := OAuthIndex(s.users, googleId, email).value;
      var u := ApplyUpdate(s.users[i], UpdateFor(s.users[i], googleId, avatarUrl, upload));
      && r.0.users == s.users[i := u]
      && r.1.user == WithoutPassword(u)
  {
    match OAuthIndex(s.users, googleId, email)
    case None =>
      var u := NewUser(s, email, name, None, Some(googleId), role, now).(avatarUrl := NewUserAvatar(avatarUrl, upload));
      var s1 := Insert(s, u);
      (s1.(sessions := s1.sessions + [NewSession(refreshToken, u.id, now)]), LoginResponse(WithoutPassword(u), accessToken, refreshToken))
    case Some(i) =>
      var d := UpdateFor(s.users[i], googleId, avatarUrl, upload);
      var u := if UpdateIssued(d) then ApplyUpdate(s.users[i], d) else s.users[i];
      var s1 := s.(users := s.users[i := u]);
      (s1.(sessions := s1.sessions + [NewSession(refreshToken, u.id, now)]), LoginResponse(WithoutPassword(u), accessToken, refreshToken))
  }

  /** A stored Google id is never overwritten. */
  lemma GoogleIdNeverOverwritten(u: User, googleId: string, avatarUrl: Option<string>, upload: Option<string>)
    requires Truthy(u.googleId)
    ensures ApplyUpdate(u, UpdateFor(u, googleId, avatarUrl, upload)).googleId == u.googleId
  {
  }

  /** An avatar that is not a Google URL is never changed, and after a failed upload the
      offered URL is used only when no avatar is stored. */
  lemma AvatarSyncRules(u: User, googleId: string, avatarUrl: Option<string>, upload: Option<string>)
    ensures Truthy(u.avatarUrl) && !IsGoogleAvatar(u.avatarUrl) ==>
      ApplyUpdate(u, UpdateFor(u, googleId, avatarUrl, upload)).avatarUrl == u.avatarUrl
    ensures !Truthy(upload) && Truthy(u.avatarUrl) ==>
      ApplyUpdate(u, UpdateFor(u, googleId, avatarUrl, upload)).avatarUrl == u.avatarUrl
    ensures !Truthy(upload) && !Truthy(u.avatarUrl) && Truthy(avatarUrl) ==>
      ApplyUpdate(u, UpdateFor(u, googleId, avatarUrl, upload)).avatarUrl == avatarUrl
  {
  }

  /** Nothing is written to the found user when there is nothing to change; the update
      otherwise touches only the Google id and the avatar. */
  lemma UpdateOnlyWhenNeeded(u: User, googleId: string, avatarUrl: Option<string>, upload: Option<string>)
    ensures var d := UpdateFor(u, googleId, avatarUrl, upload);
      && (!UpdateIssued(d) ==> ApplyUpdate(u, d) == u)
      && ApplyUpdate(u, d) == u.(googleId := ApplyUpdate(u, d).googleId, avatarUrl := ApplyUpdate(u, d).avatarUrl)
      && (Truthy(u.googleId) && !Truthy(avatarUrl) ==> !UpdateIssued(d))
  {
  }

  /** A Google sign-in that creates the account grants the same 15 credits without a
      ledger row. */
  lemma OAuthSignupBypassesLedger(s: State, email: string, name: Option<string>, avatarUrl: Option<string>,
                                  googleId: string, upload: Option<string>, role: string,
                                  accessToken: string, refreshToken: string, now: int)
    requires OAuthIndex(s.users, googleId, email).None?
    requires !HasUser(s, s.nextId)
    requires forall k :: 0 <= k < |s.txs| ==> s.txs[k].userId != s.nextId
    ensures !Credits.Balanced(OAuthResult(s, email, name, avatarUrl, googleId, upload, role,
                                          accessToken, refreshToken, now).0, s.nextId)
  {
    var u := NewUser(s, email, name, None, Some(googleId), role, now).(avatarUrl := NewUserAvatar(avatarUrl, upload));
    NewUserBypassesLedger(s, u);
    var r := OAuthResult(s, email, name, avatarUrl, googleId, upload, role, accessToken, refreshToken, now).0;
    assert r.users == Insert(s, u).users;
  }

  /** The services over the database. */
  class AuthService {
    const db: Database

    constructor (db: Database)
      ensures this.db == db
    {
      this.db := db;
    }

    method Register(email: Option<string>, password: Option<string>, hashed: string, role: string, now: int)
      returns (r: Result<PublicUser, AuthError>)
      modifies db
      ensures Applied(RegisterResult(old(db.Snapshot()), email, password, hashed, role, now), r, db.Snapshot(), old(db.Snapshot()))
    {
      if !Truthy(email) || !Truthy(password) {
        return Failure(MissingFields);
      }
      if |password.value| < 6 {
        return Failure(WeakPassword);
      }
      if EmailIndex(db.users, email.value).Some? {
        return Failure(EmailExists);
      }
      var id := db.FreshId();
      var u := User(id, email.value, None, Some(hashed), role, SIGNUP_CREDITS, None, None, false, now);
      db.users := db.users + [u];
      r := Success(WithoutPassword(u));
    }

    method Login(email: string, password: string, compare: (string, string) -> bool,
                 accessToken: string, refreshToken: string, now: int) returns (r: Result<LoginResponse, AuthError>)
      modifies db
      ensures Applied(LoginResult(old(db.Snapshot()), email, password, compare, accessToken, refreshToken, now),
                      r, db.Snapshot(), old(db.Snapshot()))
    {
      var i := EmailIndex(db.users, email);
      if i.None? {
        return Failure(InvalidCredentials);
      }
      var u := db.users[i.value];
      if !Truthy(u.password) {
        return Failure(InvalidCredentials);
      }
      var isValid := compare(password, u.password.value);
      if !isValid && (StartsWith(u.password.value, "$2a$") || StartsWith(u.password.value, "$2b$")) {
        isValid := compare(password, u.password.value);
      }
      if !isValid {
        return Failure(InvalidCredentials);
      }
      db.sessions := db.sessions + [Session(refreshToken, u.id, now + SESSION_MS)];
      r := Success(LoginResponse(WithoutPassword(u), accessToken, refreshToken));
    }

    method HandleOAuthUser(email: string, name: Option<string>, avatarUrl: Option<string>, googleId: string,
                           upload: Option<string>, role: string, accessToken: string, refreshToken: string, now: int)
      returns (r: LoginResponse)
      modifies db
      ensures (db.Snapshot(), r) == OAuthResult(old(db.Snapshot()), email, name, avatarUrl, googleId,
                                                upload, role, accessToken, refreshToken, now)
    {
      var found := OAuthIndex(db.users, googleId, email);
      var user: User;
      if found.None? {
        user := CreateOAuthUser(email, name, avatarUrl, googleId, upload, role, now);
      } else {
        user := SyncOAuthUser(found.value, googleId, avatarUrl, upload);
      }
      db.sessions := db.sessions + [Session(refreshToken, user.id, now + SESSION_MS)];
      r := LoginResponse(WithoutPassword(user), accessToken, refreshToken);
    }

    /** A new Google user: created without an avatar, then given the uploaded copy or the
        offered URL. */
    method CreateOAuthUser(email: string, name: Option<string>, avatarUrl: Option<string>, googleId: string,
                           upload: Option<string>, role: string, now: int) returns (user: User)
      modifies db
      ensures user == NewUser(old(db.Snapshot()), email, name, None, Some(googleId), role, now)
                        .(avatarUrl := NewUserAvatar(avatarUrl, upload))
      ensures db.Snapshot() == Insert(old(db.Snapshot()), user)
    {
      ghost var before := db.Snapshot();
      var id := db.FreshId();
      user := User(id, email, name, None, role, SIGNUP_CREDITS, Some(googleId), None, false, now);
      db.users := db.users + [user];
      if Truthy(avatarUrl) {
        var at := |db.users| - 1;
        if Truthy(upload) {
          user := user.(avatarUrl := upload);
        } else {
          user := user.(avatarUrl := avatarUrl);
        }
        db.users := db.users[at := user];
        assert db.users == before.users + [user];
      }
    }

    /** An existing user: `updateData` filled field by field and written only when it is not
        empty. */
    method SyncOAuthUser(i: nat, googleId: string, avatarUrl: Option<string>, upload: Option<string>)
      returns (user: User)
      requires i < |db.users|
      modifies db
      ensures user == ApplyUpdate(old(db.users[i]), UpdateFor(old(db.users[i]), googleId, avatarUrl, upload))
      ensures db.Snapshot() == old(db.Snapshot()).(users := old(db.users)[i := user])
    {
      user := db.users[i];
      var updateData := OAuthUpdate(None, None);
      if !Truthy(user.googleId) {
        updateData := updateData.(googleId := Some(googleId));
      }
      if Truthy(avatarUrl) {
        var isGoogleAvatar := IsGoogleAvatar(user.avatarUrl);
        if !Truthy(user.avatarUrl) || isGoogleAvatar {
          if Truthy(upload) {
            updateData := updateData.(avatarUrl := upload);
          } else if !Truthy(user.avatarUrl) {
            updateData := updateData.(avatarUrl := avatarUrl);
          }
        }
      }
      assert updateData == UpdateFor(db.users[i], googleId, avatarUrl, upload);
      if UpdateIssued(updateData) {
        user := ApplyUpdate(user, updateData);
        db.users := db.users[i := user];
      } else {
        assert db.users[i := user] == db.users;
      }
    }
  }
}
