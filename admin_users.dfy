/** The admin users page: a role-guarded listing and two form actions, `toggleBan` and
    `grantCredits`, which write to the database directly. */
module AdminUsers {
  import opened Wrappers
  import opened Text
  import opened Web
  import opened Db
  import opened PricingTypes
  import opened Credits
  import Admin
  import Hooks
  import Subscriptions

  /** What an action answers: `{ success: true }`, a `fail(...)`, or the error thrown by a
      database write whose `where` matches no user (answered with a 500 page). */
  datatype ActionResult = Succeeded | Failed(failure: Fail) | Threw

  /** The first user row whose id, written in decimal, is the submitted `userId` field. */
  function UserKeyIndex(users: seq<User>, key: string): (r: Option<nat>)
    ensures r.Some? ==> r.value < |users| && NatToString(users[r.value].id) == key
    ensures r.Some? ==> forall j :: 0 <= j < r.value ==> NatToString(users[j].id) != key
    ensures r.None? ==> forall j :: 0 <= j < |users| ==> NatToString(users[j].id) != key
  {
    if users == [] then None
    else if NatToString(users[0].id) == key then Some(0)
    else match UserKeyIndex(users[1..], key)
      case None => None
      case Some(k) => Some(k + 1)
  }

  /** The row found by its decimal key is the row found by its id. */
  lemma KeyIndexIsUserIndex(users: seq<User>, key: string)
    requires UserKeyIndex(users, key).Some?
    ensures UserIndex(users, users[UserKeyIndex(users, key).value].id) == UserKeyIndex(users, key)
  {
    var i := UserKeyIndex(users, key).value;
    var j := UserIndex(users, users[i].id);
    if j.value < i {
      assert false;
    }
  }

  // ----- load -----

  /** One row of the listing: the user and the number of their history rows. */
  datatype UserListing = UserListing(user: User, historyCount: nat)

  function HistoryCount(history: seq<HistoryRow>, userId: Id): nat {
    |Filter(history, (h: HistoryRow) => h.userId == userId)|
  }

  function Listing(s: State, u: User): UserListing {
    UserListing(u, HistoryCount(s.history, u.id))
  }

  /** `load`: anyone but an `ADMIN` is redirected to `/dashboard`; an admin gets every user,
      newest first, each with their history count. */
  function LoadUsers(s: State, user: Option<LocalUser>): (r: Result<seq<UserListing>, PageRedirect>)
    ensures r.Failure? <==> !IsAdmin(user)
    ensures r.Failure? ==> r.error == PageRedirect(303, "/dashboard")
    ensures r.Success? ==>
      && |r.value| == |s.users|
      && forall i :: 0 <= i < |s.users| ==> r.value[i] == Listing(s, s.users[|s.users| - 1 - i])
  {
    if !IsAdmin(user) then Failure(PageRedirect(303, "/dashboard"))
    else
      var newest := NewestFirst(s.users);
      Success(seq(|newest|, i requires 0 <= i < |newest| => Listing(s, newest[i])))
  }

  /** The hook never puts a role into the locals, so every request to the page is
      redirected. */
  lemma LoadAfterHookRedirects(s: State, cookie: Option<string>, now: int)
    ensures LoadUsers(Hooks.Handle(s, cookie, now).0, Hooks.Handle(s, cookie, now).1.user).Failure?
  {
    Hooks.LocalsCarryNoRole(s, cookie, now);
  }

  // ----- toggleBan -----

  /** `toggleBan`: the user named by the form gets `isBanned` set to the negation of the
      submitted `currentStatus === 'true'`; the stored flag is never read. */
  function ToggleBan(s: State, userId: Option<string>, currentStatus: Option<string>): (r: (State, ActionResult))
    ensures r.1 != Threw ==> r.1 == Succeeded
    ensures r.1 == Threw <==> userId.None? || UserKeyIndex(s.users, userId.value).None?
    ensures r.1 == Threw ==> r.0 == s
    ensures r.1 == Succeeded ==>
      var i := UserKeyIndex(s.users, userId.value).value;
      && r.0 == s.(users := r.0.users)
      && |r.0.users| == |s.users|
      && r.0.users[i] == s.users[i].(isBanned := currentStatus != Some("true"))
      && forall j :: 0 <= j < |s.users| && j != i ==> r.0.users[j] == s.users[j]
  {
    if userId.None? then (s, Threw)
    else match UserKeyIndex(s.users, userId.value)
      case None => (s, Threw)
      case Some(i) =>
        (s.(users := s.users[i := s.users[i].(isBanned := !(currentStatus == Some("true")))]), Succeeded)
  }

  /** Submitting the same form twice is the same as submitting it once: the action sets
      the flag, it does not flip it. */
  lemma ToggleBanIsIdempotent(s: State, userId: Option<string>, currentStatus: Option<string>)
    ensures var once := ToggleBan(s, userId, currentStatus);
      ToggleBan(once.0, userId, currentStatus) == once
  {
    var once := ToggleBan(s, userId, currentStatus);
    if once.1 == Succeeded {
      var i := UserKeyIndex(s.users, userId.value).value;
      forall j | 0 <= j < |s.users|
        ensures NatToString(once.0.users[j].id) == NatToString(s.users[j].id)
      {
      }
      SameKeysSameKeyIndex(s.users, once.0.users, userId.value);
      assert once.0.users[i := once.0.users[i].(isBanned := currentStatus != Some("true"))] == once.0.users;
    }
  }

  /** Two tables with the same ids place every key at the same row. */
  lemma {:induction false} SameKeysSameKeyIndex(a: seq<User>, b: seq<User>, key: string)
    requires |a| == |b|
    requires forall j :: 0 <= j < |a| ==> NatToString(a[j].id) == NatToString(b[j].id)
    ensures UserKeyIndex(a, key) == UserKeyIndex(b, key)
  {
    if a != [] {
      SameKeysSameKeyIndex(a[1..], b[1..], key);
    }
  }

  /** The stored flag plays no part: two states that differ only in that user's flag end
      in the same state. */
  lemma ToggleBanIgnoresStoredFlag(s: State, userId: string, currentStatus: Option<string>, stored: bool)
    requires UserKeyIndex(s.users, userId).Some?
    ensures var i := UserKeyIndex(s.users, userId).value;
      var t := s.(users := s.users[i := s.users[i].(isBanned := stored)]);
      ToggleBan(t, Some(userId), currentStatus) == ToggleBan(s, Some(userId), currentStatus)
  {
    var i := UserKeyIndex(s.users, userId).value;
    var t := s.(users := s.users[i := s.users[i].(isBanned := stored)]);
    forall j | 0 <= j < |s.users|
      ensures NatToString(t.users[j].id) == NatToString(s.users[j].id)
    {
    }
    SameKeysSameKeyIndex(s.users, t.users, userId);
    assert t.users[i := t.users[i].(isBanned := currentStatus != Some("true"))]
           == s.users[i := s.users[i].(isBanned := currentStatus != Some("true"))];
  }

  // ----- grantCredits -----

  const GRANT_DESCRIPTION := "Manual grant by Admin"

  /** `parseInt(formData.get('amount'))`, `None` standing for `NaN` (an absent field parses
      as `NaN`). */
  function ParsedAmount(amountField: Option<string>, parseInt: string -> Option<int>): Option<int> {
    if amountField.Some? then parseInt(amountField.value) else None
  }

  /** `!amount || amount < 1` rejects `NaN`, zero and negative amounts. */
  predicate ValidAmount(amount: Option<int>) {
    !(amount.None? || amount.value == 0 || amount.value < 1)
  }

  /** `grantCredits`: an invalid amount is answered with 400 and nothing changes; otherwise
      the named user's balance is raised and one `admin_grant` row is appended, together,
      and an unknown user makes the update throw with nothing written. */
  function GrantCredits(s: State, userId: Option<string>, amountField: Option<string>,
                        parseInt: string -> Option<int>, now: int): (r: (State, ActionResult))
    ensures r.1 == Failed(Fail(400, "Invalid amount")) <==> !ValidAmount(ParsedAmount(amountField, parseInt))
    ensures r.1.Failed? ==> r.1 == Failed(Fail(400, "Invalid amount"))
    ensures r.1 == Threw <==>
      ValidAmount(ParsedAmount(amountField, parseInt)) && (userId.None? || UserKeyIndex(s.users, userId.value).None?)
    ensures r.1 != Succeeded ==> r.0 == s
    ensures r.1 == Succeeded ==>
      var u := s.users[UserKeyIndex(s.users, userId.value).value].id;
      var amount := ParsedAmount(amountField, parseInt).value;
      && amount >= 1
      && Balance(r.0, u) == Balance(s, u) + amount
      && r.0.txs == s.txs + [CreditTx(s.nextId, u, amount, AdminGrant, GRANT_DESCRIPTION, None, now)]
  {
    var amount := ParsedAmount(amountField, parseInt);
    if !ValidAmount(amount) then (s, Failed(Fail(400, "Invalid amount")))
    else if userId.None? then (s, Threw)
    else match UserKeyIndex(s.users, userId.value)
      case None => (s, Threw)
      case Some(i) =>
        KeyIndexIsUserIndex(s.users, userId.value);
        (Admin.Grant(s, s.users[i].id, amount.value, AdminGrant, GRANT_DESCRIPTION, now).value, Succeeded)
  }

  /** The grant is one ledger step for its user, and the row it appends carries a type the
      declared transaction-type union does not list. */
  lemma GrantCreditsIsLedgerStep(s: State, userId: Option<string>, amountField: Option<string>,
                                 parseInt: string -> Option<int>, now: int)
    requires GrantCredits(s, userId, amountField, parseInt, now).1 == Succeeded
    ensures var u := s.users[UserKeyIndex(s.users, userId.value).value].id;
      var r := GrantCredits(s, userId, amountField, parseInt, now).0;
      && LedgerStep(s, r, u)
      && !IsDeclaredTxType(r.txs[|r.txs| - 1].txType)
  {
    var i := UserKeyIndex(s.users, userId.value).value;
    KeyIndexIsUserIndex(s.users, userId.value);
    Admin.GrantIsLedgerStep(s, s.users[i].id, ParsedAmount(amountField, parseInt).value, AdminGrant, GRANT_DESCRIPTION, now);
  }

  /** Every user's balance stays equal to the sum of their ledger rows. */
  lemma GrantCreditsKeepsBalanced(s: State, userId: Option<string>, amountField: Option<string>,
                                  parseInt: string -> Option<int>, now: int, v: Id)
    requires Balanced(s, v)
    ensures Balanced(GrantCredits(s, userId, amountField, parseInt, now).0, v)
  {
    if GrantCredits(s, userId, amountField, parseInt, now).1 == Succeeded {
      GrantCreditsIsLedgerStep(s, userId, amountField, parseInt, now);
      LedgerStepKeepsBalanced(s, GrantCredits(s, userId, amountField, parseInt, now).0,
                              s.users[UserKeyIndex(s.users, userId.value).value].id, v);
    }
  }

  /** A valid grant to a user the form names is exactly the two writes of `Post`. */
  lemma GrantCreditsWrites(s: State, userId: string, amountField: Option<string>,
                           parseInt: string -> Option<int>, now: int)
    requires ValidAmount(ParsedAmount(amountField, parseInt)) && UserKeyIndex(s.users, userId).Some?
    ensures var i := UserKeyIndex(s.users, userId).value;
      var amount := ParsedAmount(amountField, parseInt).value;
      GrantCredits(s, Some(userId), amountField, parseInt, now)
      == (Post(s, i, s.users[i].credits + amount,
               CreditTx(s.nextId, s.users[i].id, amount, AdminGrant, GRANT_DESCRIPTION, None, now)), Succeeded)
  {
    var i := UserKeyIndex(s.users, userId).value;
    KeyIndexIsUserIndex(s.users, userId);
    Admin.GrantWrites(s, s.users[i].id, ParsedAmount(amountField, parseInt).value, AdminGrant, GRANT_DESCRIPTION, now);
  }

  /** Only `load` checks the role: a caller the listing turns away still gets its grant. */
  lemma OnlyLoadChecksRole(s: State, caller: Option<LocalUser>, userId: string, amountField: Option<string>,
                           parseInt: string -> Option<int>, now: int)
    requires !IsAdmin(caller)
    requires ValidAmount(ParsedAmount(amountField, parseInt)) && UserKeyIndex(s.users, userId).Some?
    ensures LoadUsers(s, caller).Failure?
    ensures GrantCredits(s, Some(userId), amountField, parseInt, now).1 == Succeeded
  {
  }

  /** The two actions, over the database. Neither takes the caller: they run for anyone. */
  class UsersPage {
    const db: Database

    constructor (db: Database)
      ensures this.db == db
    {
      this.db := db;
    }

    method ToggleBanAction(userId: Option<string>, currentStatus: Option<string>) returns (r: ActionResult)
      modifies db
      ensures (db.Snapshot(), r) == ToggleBan(old(db.Snapshot()), userId, currentStatus)
    {
      var isBanned := currentStatus == Some("true");
      if userId.None? {
        return Threw;
      }
      var idx := UserKeyIndex(db.users, userId.value);
      if idx.None? {
        return Threw;
      }
      db.users := db.users[idx.value := db.users[idx.value].(isBanned := !isBanned)];
      r := Succeeded;
    }

    /** The two writes of the grant's database transaction: the balance and the row. */
    method WriteGrant(i: nat, credits: int, userId: Id, amount: int, now: int)
      requires i < |db.users|
      modifies db
      ensures db.Snapshot() == Post(old(db.Snapshot()), i, credits,
                                    CreditTx(old(db.nextId), userId, amount, AdminGrant, GRANT_DESCRIPTION, None, now))
    {
      db.users := db.users[i := db.users[i].(credits := credits)];
      var id := db.FreshId();
      db.transactions := db.transactions + [CreditTx(id, userId, amount, AdminGrant, GRANT_DESCRIPTION, None, now)];
    }

    method GrantCreditsAction(userId: Option<string>, amountField: Option<string>,
                              parseInt: string -> Option<int>, now: int) returns (r: ActionResult)
      modifies db
      ensures (db.Snapshot(), r) == GrantCredits(old(db.Snapshot()), userId, amountField, parseInt, now)
    {
      ghost var before := db.Snapshot();
      var amount := ParsedAmount(amountField, parseInt);
      if amount.None? || amount.value == 0 || amount.value < 1 {
        return Failed(Fail(400, "Invalid amount"));
      }
      if userId.None? {
        return Threw;
      }
      var idx := UserKeyIndex(db.users, userId.value);
      if idx.None? {
        return Threw;
      }
      var u := db.users[idx.value];
      GrantCreditsWrites(before, userId.value, amountField, parseInt, now);
      WriteGrant(idx.value, u.credits + amount.value, u.id, amount.value, now);
      r := Succeeded;
    }
  }
}
