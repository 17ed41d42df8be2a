/** Per-user credits as the dashboard reads them, the history of processed images, and
    the charge of one credit per processed image. */
module Users {
  import opened Wrappers
  import opened PricingTypes
  import opened Text
  import opened Db
  import opened Credits

  const HISTORY_EXPIRY_DAYS: int := 7
  const HISTORY_EXPIRY_MS: int := HISTORY_EXPIRY_DAYS * DAY_MS
  const COST_PER_ACTION: int := 1
  const HISTORY_PAGE: nat := 20

  /** `getUserCredits`: `user?.credits || 0`, the same number `getBalance` gives. */
  function UserCredits(s: State, userId: Id): (r: int)
    ensures r == Balance(s, userId)
    ensures !HasUser(s, userId) ==> r == 0
  {
    match UserIndex(s.users, userId)
    case None => 0
    case Some(i) => if s.users[i].credits == 0 then 0 else s.users[i].credits
  }

  /** `recordActivity`: charges one credit and records the processed image in the history,
      to expire in seven days; writes no ledger row. */
  function Record(s: State, userId: Id, action: Option<string>, outputFormat: Option<string>, fileName: string,
                          outputUrl: string, now: int): (r: Result<(State, User), LedgerError>)
    ensures r == Failure(UserNotFound) <==> !HasUser(s, userId)
    ensures r == Failure(InsufficientCredits) <==> HasUser(s, userId) && Balance(s, userId) < COST_PER_ACTION
    ensures r.Success? ==>
      var s' := r.value.0;
      && HasUser(s', userId)
      && Balance(s', userId) == Balance(s, userId) - COST_PER_ACTION
      && r.value.1 == UserOf(s, userId).(credits := Balance(s', userId))
      && UserOf(s', userId) == r.value.1
      && s'.history == s.history + [HistoryRow(s.nextId, userId, action, outputFormat, fileName,
                                               outputUrl, COST_PER_ACTION, Some(now + HISTORY_EXPIRY_MS), false, now)]
      && s'.txs == s.txs && s'.subs == s.subs && s'.payments == s.payments && s'.plans == s.plans
      && s'.sessions == s.sessions && s'.announcements == s.announcements && s'.config == s.config
      && |s'.users| == |s.users|
      && (forall j :: 0 <= j < |s.users| && s.users[j].id != userId ==> s'.users[j] == s.users[j])
      && s'.nextId == s.nextId + 1
  {
    match UserIndex(s.users, userId)
    case None => Failure(UserNotFound)
    case Some(i) =>
      var user := s.users[i];
      if user.credits < COST_PER_ACTION then Failure(InsufficientCredits)
      else
        var updated := user.(credits := user.credits - COST_PER_ACTION);
        var row := HistoryRow(s.nextId, userId, action, outputFormat, fileName, outputUrl,
                              COST_PER_ACTION, Some(now + HISTORY_EXPIRY_MS), false, now);
        var s' := s.(users := s.users[i := updated], history := s.history + [row], nextId := s.nextId + 1);
        SameIdsSameIndex(s.users, s'.users, userId);
        Success((s', updated))
  }

  /** The charge is not in the ledger: a balance that matched its ledger rows no longer
      does after a recorded activity. */
  lemma RecordActivityBreaksLedger(s: State, userId: Id, action: Option<string>, outputFormat: Option<string>,
                                   fileName: string, outputUrl: string, now: int)
    requires Balanced(s, userId)
    requires Record(s, userId, action, outputFormat, fileName, outputUrl, now).Success?
    ensures !Balanced(Record(s, userId, action, outputFormat, fileName, outputUrl, now).value.0, userId)
  {
  }

  /** Rows `getUserHistory` shows: permanent, not yet expired, or without an expiry. */
  predicate IsVisible(h: HistoryRow, now: int) {
    h.isPermanent || h.expiresAt.None? || h.expiresAt.value >= now
  }

  predicate ShownTo(h: HistoryRow, userId: Id, now: int) {
    h.userId == userId && IsVisible(h, now)
  }

  /** `getUserHistory`: at most 20 of the user's visible rows, newest first. With `V` the
      visible rows in table order, entry `k` is `V`'s row `k` counted from the end, so the
      20 newest are returned; when there are no more than 20, all of them. */
  function UserHistory(s: State, userId: Id, now: int): (r: seq<HistoryRow>)
    ensures var n := |Filter(s.history, h => ShownTo(h, userId, now))|;
      |r| == if n <= HISTORY_PAGE then n else HISTORY_PAGE
    ensures var v := Filter(s.history, h => ShownTo(h, userId, now));
      forall k :: 0 <= k < |r| ==> r[k] == v[|v| - 1 - k]
    ensures forall k :: 0 <= k < |r| ==> r[k] in s.history && ShownTo(r[k], userId, now)
    ensures |Filter(s.history, h => ShownTo(h, userId, now))| <= HISTORY_PAGE ==>
      forall h :: h in s.history && ShownTo(h, userId, now) ==> h in r
  {
    var rows := Filter(s.history, h => ShownTo(h, userId, now));
    var newest := NewestFirst(rows);
    var r := Page(newest, 0, HISTORY_PAGE);
    assert forall k :: 0 <= k < |r| ==> r[k] == rows[|rows| - 1 - k] && r[k] in rows;
    assert |rows| <= HISTORY_PAGE ==> forall h :: h in rows ==> h in r by {
      if |rows| <= HISTORY_PAGE {
        assert r == newest;
        NewestFirstKeepsRows(rows);
      }
    }
    r
  }

  predicate Targets(h: HistoryRow, historyId: string, userId: Id) {
    NatToString(h.id) == historyId && h.userId == userId
  }

  /** The `where: { id, userId }` of `deleteHistory` and `markHistoryPermanent`. */
  function Targeted(historyId: string, userId: Id): HistoryRow -> bool {
    h => Targets(h, historyId, userId)
  }

  /** `deleteHistory`: removes exactly the rows with this id owned by this user, keeps the
      others in table order, and returns the number of rows it removed. */
  function Delete(s: State, historyId: string, userId: Id): (r: (State, nat))
    ensures forall h :: h in r.0.history <==> h in s.history && !Targets(h, historyId, userId)
    ensures r.0.history == Filter(s.history, Not(Targeted(historyId, userId)))
    ensures r.1 == |Filter(s.history, Targeted(historyId, userId))|
    ensures r.1 == |s.history| - |r.0.history|
    ensures r.0 == s.(history := r.0.history)
  {
    var kept := Filter(s.history, Not(Targeted(historyId, userId)));
    FilterPartition(s.history, Targeted(historyId, userId));
    (s.(history := kept), |s.history| - |kept|)
  }

  function MarkRow(h: HistoryRow, historyId: string, userId: Id, isPermanent: bool, now: int): HistoryRow {
    if Targets(h, historyId, userId)
    then h.(isPermanent := isPermanent, expiresAt := if isPermanent then None else Some(now + HISTORY_EXPIRY_MS))
    else h
  }

  /** `markHistoryPermanent`: only rows with this id owned by this user change; made
      permanent they lose their expiry, made temporary they expire in seven days. */
  function MarkPermanent(s: State, historyId: string, userId: Id, isPermanent: bool, now: int): (r: State)
    ensures r == s.(history := r.history)
    ensures |r.history| == |s.history|
    ensures forall k :: 0 <= k < |s.history| && !Targets(s.history[k], historyId, userId) ==> r.history[k] == s.history[k]
    ensures forall k :: 0 <= k < |s.history| && Targets(s.history[k], historyId, userId) ==>
      r.history[k].isPermanent == isPermanent
      && r.history[k].expiresAt == (if isPermanent then None else Some(now + HISTORY_EXPIRY_MS))
      && r.history[k] == s.history[k].(isPermanent := r.history[k].isPermanent, expiresAt := r.history[k].expiresAt)
  {
    s.(history := seq(|s.history|, k requires 0 <= k < |s.history| =>
                      MarkRow(s.history[k], historyId, userId, isPermanent, now)))
  }

  /** Rows `cleanupExpiredHistory` deletes: not permanent and expired before `now`. */
  predicate IsStale(h: HistoryRow, now: int) {
    !h.isPermanent && h.expiresAt.Some? && h.expiresAt.value < now
  }

  /** The `where` of `cleanupExpiredHistory`. */
  function Stale(now: int): HistoryRow -> bool {
    h => IsStale(h, now)
  }

  /** `cleanupExpiredHistory`: deletes exactly the stale rows, keeps the others in table
      order, and returns the number of rows it deleted. */
  function CleanupExpired(s: State, now: int): (r: (State, nat))
    ensures forall h :: h in r.0.history <==> h in s.history && !IsStale(h, now)
    ensures r.0.history == Filter(s.history, Not(Stale(now)))
    ensures r.1 == |Filter(s.history, Stale(now))|
    ensures r.1 == |s.history| - |r.0.history|
    ensures r.0 == s.(history := r.0.history)
  {
    var kept := Filter(s.history, Not(Stale(now)));
    FilterPartition(s.history, Stale(now));
    (s.(history := kept), |s.history| - |kept|)
  }

  /** After a cleanup every remaining row passes `getUserHistory`'s visibility filter. */
  lemma CleanupLeavesOnlyVisible(s: State, now: int)
    ensures forall h :: h in CleanupExpired(s, now).0.history ==> IsVisible(h, now)
  {
  }

  /** `UserService`. */
  class UserService {
    const db: Database

    constructor (db: Database)
      ensures this.db == db
    {
      this.db := db;
    }

    method RecordActivity(userId: Id, action: Option<string>, outputFormat: Option<string>, fileName: string,
                          outputUrl: string, now: int) returns (r: Result<User, LedgerError>)
      modifies db
      ensures Applied(Record(old(db.Snapshot()), userId, action, outputFormat, fileName, outputUrl, now),
                      r, db.Snapshot(), old(db.Snapshot()))
    {
      var expiresAt := now + HISTORY_EXPIRY_MS;
      var idx := UserIndex(db.users, userId);
      if idx.None? {
        return Failure(UserNotFound);
      }
      var user := db.users[idx.value];
      if user.credits < COST_PER_ACTION {
        return Failure(InsufficientCredits);
      }
      var updated := user.(credits := user.credits - COST_PER_ACTION);
      db.users := db.users[idx.value := updated];
      var id := db.FreshId();
      db.history := db.history + [HistoryRow(id, userId, action, outputFormat, fileName, outputUrl,
                                             COST_PER_ACTION, Some(expiresAt), false, now)];
      r := Success(updated);
    }

    method DeleteHistory(historyId: string, userId: Id) returns (count: nat)
      modifies db
      ensures (db.Snapshot(), count) == Delete(old(db.Snapshot()), historyId, userId)
    {
      var kept := Filter(db.history, Not(Targeted(historyId, userId)));
      count := |db.history| - |kept|;
      db.history := kept;
    }

    method MarkHistoryPermanent(historyId: string, userId: Id, isPermanent: bool, now: int)
      modifies db
      ensures db.Snapshot() == MarkPermanent(old(db.Snapshot()), historyId, userId, isPermanent, now)
    {
      db.history := seq(|db.history|, k requires 0 <= k < |db.history| reads db =>
                        MarkRow(db.history[k], historyId, userId, isPermanent, now));
    }

    method CleanupExpiredHistory(now: int) returns (count: nat)
      modifies db
      ensures (db.Snapshot(), count) == CleanupExpired(old(db.Snapshot()), now)
    {
      var kept := Filter(db.history, Not(Stale(now)));
      count := |db.history| - |kept|;
      db.history := kept;
    }
  }
}
