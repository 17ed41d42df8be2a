/** The credit ledger: a user's `credits` balance and the append-only table of credit
    transactions, updated together inside one database transaction. */
module Credits {
  import opened Wrappers
  import opened Text
  import opened PricingTypes
  import opened Db

  /** `findUniqueOrThrow` failing on an unknown user, and the 'Insufficient credits' throw. */
  datatype LedgerError = UserNotFound | InsufficientCredits

  /** `AddCreditsResult`. */
  datatype AddResult = AddResult(newBalance: int, transaction: CreditTx)

  /** `getBalance`: `user?.credits ?? 0`. */
  function Balance(s: State, userId: Id): (b: int)
    ensures !HasUser(s, userId) ==> b == 0
    ensures HasUser(s, userId) ==> b == UserOf(s, userId).credits
  {
    match UserIndex(s.users, userId)
    case None => 0
    case Some(i) => s.users[i].credits
  }

  predicate MatchesKey(tx: CreditTx, ref: string, t: TxType) {
    tx.referenceId == Some(ref) && tx.txType == t
  }

  /** `findFirst({ where: { referenceId, type } })`: the first row, of any user, with that
      reference and type. */
  function FindByReference(txs: seq<CreditTx>, ref: string, t: TxType): (r: Option<nat>)
    ensures r.Some? ==> r.value < |txs| && MatchesKey(txs[r.value], ref, t)
    ensures r.None? ==> forall j :: 0 <= j < |txs| ==> !MatchesKey(txs[j], ref, t)
  {
    if txs == [] then None
    else if MatchesKey(txs[0], ref, t) then Some(0)
    else match FindByReference(txs[1..], ref, t)
      case None => None
      case Some(k) => Some(k + 1)
  }

  lemma {:induction false} FindByReferenceAppend(txs: seq<CreditTx>, x: CreditTx, ref: string, t: TxType)
    requires FindByReference(txs, ref, t).None?
    requires MatchesKey(x, ref, t)
    ensures FindByReference(txs + [x], ref, t) == Some(|txs|)
  {
    if txs != [] {
      assert (txs + [x])[1..] == txs[1..] + [x];
      FindByReferenceAppend(txs[1..], x, ref, t);
    }
  }

  /** A row that does not carry the key leaves the lookup as it was. */
  lemma {:induction false} FindByReferenceAppendOther(txs: seq<CreditTx>, x: CreditTx, ref: string, t: TxType)
    requires !MatchesKey(x, ref, t)
    ensures FindByReference(txs + [x], ref, t) == FindByReference(txs, ref, t)
  {
    if txs != [] {
      assert (txs + [x])[1..] == txs[1..] + [x];
      FindByReferenceAppendOther(txs[1..], x, ref, t);
    }
  }

  /** Whether an `addCredits` call is answered from an earlier row instead of writing. */
  predicate IsReplay(s: State, t: TxType, referenceId: Option<string>) {
    Truthy(referenceId) && FindByReference(s.txs, referenceId.value, t).Some?
  }

  /** Sum of the amounts of some ledger rows. */
  function SumAmounts(rows: seq<CreditTx>): int {
    if rows == [] then 0 else SumAmounts(rows[..|rows| - 1]) + rows[|rows| - 1].amount
  }

  /** Sum of the amounts of one user's ledger rows. */
  function SumFor(rows: seq<CreditTx>, userId: Id): int {
    if rows == [] then 0
    else SumFor(rows[..|rows| - 1], userId)
         + (if rows[|rows| - 1].userId == userId then rows[|rows| - 1].amount else 0)
  }

  /** A user's balance equals the sum of their ledger rows. */
  ghost predicate Balanced(s: State, userId: Id) {
    Balance(s, userId) == SumFor(s.txs, userId)
  }

  /** One ledger step for user `u`: only `u`'s row may change and only in `credits`, the
      ledger grows by at most one row of `u`, nothing else changes, and `u`'s balance moves
      by exactly the amount appended (the delta invariant). */
  ghost predicate LedgerStep(s: State, s': State, u: Id) {
    && HasUser(s, u)
    && s'.plans == s.plans && s'.subs == s.subs && s'.payments == s.payments
    && s'.history == s.history && s'.sessions == s.sessions
    && s'.announcements == s.announcements && s'.config == s.config
    && |s'.users| == |s.users|
    && (forall j :: 0 <= j < |s.users| && j != UserIndex(s.users, u).value ==> s'.users[j] == s.users[j])
    && s'.users[UserIndex(s.users, u).value]
       == s.users[UserIndex(s.users, u).value].(credits := s'.users[UserIndex(s.users, u).value].credits)
    && s.txs <= s'.txs && |s'.txs| <= |s.txs| + 1
    && (forall k :: |s.txs| <= k < |s'.txs| ==> s'.txs[k].userId == u)
    && Balance(s', u) == Balance(s, u) + SumAmounts(s'.txs[|s.txs|..])
  }

  /** The state after `u`'s row is given balance `credits` and `tx` is appended. */
  function Post(s: State, i: nat, credits: int, tx: CreditTx): State
    requires i < |s.users|
  {
    s.(users := s.users[i := s.users[i].(credits := credits)], txs := s.txs + [tx], nextId := s.nextId + 1)
  }

  lemma PostIsLedgerStep(s: State, u: Id, credits: int, tx: CreditTx)
    requires HasUser(s, u) && tx.userId == u && credits == Balance(s, u) + tx.amount
    ensures LedgerStep(s, Post(s, UserIndex(s.users, u).value, credits, tx), u)
    ensures Balance(Post(s, UserIndex(s.users, u).value, credits, tx), u) == credits
  {
    var i := UserIndex(s.users, u).value;
    var s' := Post(s, i, credits, tx);
    SameIdsSameIndex(s.users, s'.users, u);
    assert s'.txs[|s.txs|..] == [tx];
    assert SumAmounts([tx]) == SumAmounts([tx][..0]) + tx.amount;
  }

  lemma UnchangedIsLedgerStep(s: State, u: Id)
    requires HasUser(s, u)
    ensures LedgerStep(s, s, u)
  {
    assert s.txs[|s.txs|..] == [];
  }

  /** `addCredits`. A non-empty `referenceId` already recorded with the same type makes the
      call a replay: nothing changes and the old row comes back with the current balance.
      Otherwise the balance rises by `amount` and one row recording it is appended. */
  function Add(s: State, userId: Id, amount: int, t: TxType, description: Option<string>,
               referenceId: Option<string>, now: int): (r: Result<(State, AddResult), LedgerError>)
    ensures r.Failure? <==> !HasUser(s, userId)
    ensures r.Failure? ==> r.error == UserNotFound
    ensures r.Success? ==> LedgerStep(s, r.value.0, userId)
    ensures r.Success? && IsReplay(s, t, referenceId) ==>
      r.value.0 == s
      && r.value.1 == AddResult(Balance(s, userId), s.txs[FindByReference(s.txs, referenceId.value, t).value])
    ensures r.Success? && !IsReplay(s, t, referenceId) ==>
      var s' := r.value.0;
      && s'.txs == s.txs + [r.value.1.transaction]
      && r.value.1.transaction == CreditTx(s.nextId, userId, amount, t,
           description.GetOr("Added " + IntToString(amount) + " credits"), referenceId, now)
      && Balance(s', userId) == Balance(s, userId) + amount
      && r.value.1.newBalance == Balance(s', userId)
      && s'.nextId == s.nextId + 1
  {
    if IsReplay(s, t, referenceId) then
      if !HasUser(s, userId) then Failure(UserNotFound)
      else
        UnchangedIsLedgerStep(s, userId);
        Success((s, AddResult(Balance(s, userId), s.txs[FindByReference(s.txs, referenceId.value, t).value])))
    else
      match UserIndex(s.users, userId)
      case None => Failure(UserNotFound)
      case Some(i) =>
        var tx := CreditTx(s.nextId, userId, amount, t,
                           description.GetOr("Added " + IntToString(amount) + " credits"), referenceId, now);
        var credits := s.users[i].credits + amount;
        PostIsLedgerStep(s, userId, credits, tx);
        Success((Post(s, i, credits, tx), AddResult(credits, tx)))
  }

  /** Idempotency of `addCredits` on `(referenceId, type)`: once a call with a non-empty key
      has succeeded, any later call with that key and type, whatever its amount, changes
      nothing and returns the row the first call wrote. */
  lemma {:induction false} AddIsIdempotent(s: State, userId: Id, amount: int, t: TxType,
      description: Option<string>, ref: string, now: int,
      amount2: int, description2: Option<string>, now2: int)
    requires ref != ""
    requires Add(s, userId, amount, t, description, Some(ref), now).Success?
    ensures var (s1, first) := Add(s, userId, amount, t, description, Some(ref), now).value;
      Add(s1, userId, amount2, t, description2, Some(ref), now2)
        == Success((s1, AddResult(Balance(s1, userId), first.transaction)))
  {
    var (s1, first) := Add(s, userId, amount, t, description, Some(ref), now).value;
    if !IsReplay(s, t, Some(ref)) {
      FindByReferenceAppend(s.txs, first.transaction, ref, t);
    }
    SameIdsSameIndex(s.users, s1.users, userId);
  }

  /** `deductCredits`: refuses when the balance is below `amount`; otherwise lowers it by
      `amount` and appends one `usage` row of `-amount`. */
  function Deduct(s: State, userId: Id, amount: int, description: Option<string>,
                  referenceId: Option<string>, now: int): (r: Result<(State, int), LedgerError>)
    ensures r == Failure(UserNotFound) <==> !HasUser(s, userId)
    ensures r == Failure(InsufficientCredits) <==> HasUser(s, userId) && Balance(s, userId) < amount
    ensures r.Success? ==> LedgerStep(s, r.value.0, userId)
    ensures r.Success? ==>
      var s' := r.value.0;
      && r.value.1 == Balance(s, userId) - amount
      && r.value.1 >= 0
      && Balance(s', userId) == r.value.1
      && s'.txs == s.txs + [CreditTx(s.nextId, userId, -amount, Usage,
           description.GetOr("Used " + IntToString(amount) + " credit(s)"), referenceId, now)]
      && s'.nextId == s.nextId + 1
  {
    match UserIndex(s.users, userId)
    case None => Failure(UserNotFound)
    case Some(i) =>
      if s.users[i].credits < amount then Failure(InsufficientCredits)
      else
        var tx := CreditTx(s.nextId, userId, -amount, Usage,
                           description.GetOr("Used " + IntToString(amount) + " credit(s)"), referenceId, now);
        var credits := s.users[i].credits - amount;
        PostIsLedgerStep(s, userId, credits, tx);
        Success((Post(s, i, credits, tx), credits))
  }

  /** `expireCredits`: a positive balance is zeroed and recorded as one `expired` row of
      minus that balance, referencing the subscription; a balance of 0 or below is left as
      is and 0 is returned. */
  function Expire(s: State, userId: Id, subscriptionId: string, now: int): (r: Result<(State, int), LedgerError>)
    ensures r.Failure? <==> !HasUser(s, userId)
    ensures r.Failure? ==> r.error == UserNotFound
    ensures r.Success? ==> LedgerStep(s, r.value.0, userId)
    ensures r.Success? && Balance(s, userId) <= 0 ==> r.value == (s, 0)
    ensures r.Success? && Balance(s, userId) > 0 ==>
      var s' := r.value.0;
      && r.value.1 == Balance(s, userId)
      && Balance(s', userId) == 0
      && s'.txs == s.txs + [CreditTx(s.nextId, userId, -Balance(s, userId), TxType.Expired,
           "Expired " + IntToString(Balance(s, userId)) + " unused credits", Some(subscriptionId), now)]
      && s'.nextId == s.nextId + 1
  {
    match UserIndex(s.users, userId)
    case None => Failure(UserNotFound)
    case Some(i) =>
      var expired := s.users[i].credits;
      if expired <= 0 then
        UnchangedIsLedgerStep(s, userId);
        Success((s, 0))
      else
        var tx := CreditTx(s.nextId, userId, -expired, TxType.Expired,
                           "Expired " + IntToString(expired) + " unused credits", Some(subscriptionId), now);
        PostIsLedgerStep(s, userId, 0, tx);
        Success((Post(s, i, 0, tx), expired))
  }

  lemma {:induction false} SumForAppendOne(rows: seq<CreditTx>, x: CreditTx, v: Id)
    ensures SumFor(rows + [x], v) == SumFor(rows, v) + (if x.userId == v then x.amount else 0)
  {
    assert (rows + [x])[..|rows + [x]| - 1] == rows;
  }

  /** A ledger step keeps every user's balance equal to the sum of that user's rows. */
  lemma {:induction false} LedgerStepKeepsBalanced(s: State, s': State, u: Id, v: Id)
    requires LedgerStep(s, s', u)
    requires Balanced(s, v)
    ensures Balanced(s', v)
  {
    var i := UserIndex(s.users, u).value;
    SameIdsSameIndex(s.users, s'.users, v);
    if |s'.txs| == |s.txs| {
      assert s'.txs == s.txs;
      assert s'.txs[|s.txs|..] == [];
    } else {
      var x := s'.txs[|s.txs|];
      assert s'.txs == s.txs + [x];
      assert s'.txs[|s.txs|..] == [x];
      assert SumAmounts([x]) == SumAmounts([x][..0]) + x.amount;
      SumForAppendOne(s.txs, x, v);
      if v != u {
        match UserIndex(s.users, v)
        case None =>
        case Some(k) => assert k != i;
      }
    }
  }

  function OwnedBy(userId: Id): CreditTx -> bool {
    (x: CreditTx) => x.userId == userId
  }

  /** The rows of one user, in table order. */
  function RowsOf(txs: seq<CreditTx>, userId: Id): (r: seq<CreditTx>)
    ensures |r| <= |txs|
    ensures forall x :: x in r <==> x in txs && x.userId == userId
  {
    Filter(txs, OwnedBy(userId))
  }

  /** The user's rows keep table order: the rows of a concatenation are those of each part
      in turn. */
  lemma RowsOfAppend(a: seq<CreditTx>, b: seq<CreditTx>, userId: Id)
    ensures RowsOf(a + b, userId) == RowsOf(a, userId) + RowsOf(b, userId)
  {
    FilterAppend(a, b, OwnedBy(userId));
  }

  /** `getTransactions`: the user's rows, newest first, `offset` skipped, at most `limit`.
      With `R` the user's rows in table order, entry `k` is `R`'s row `offset + k` counted
      from the end, and the page is as long as `limit` allows once `offset` rows are
      skipped. */
  function Transactions(s: State, userId: Id, limit: nat, offset: nat): (r: seq<CreditTx>)
    ensures var n := |RowsOf(s.txs, userId)|;
      |r| == if offset >= n then 0 else if offset + limit <= n then limit else n - offset
    ensures var v := RowsOf(s.txs, userId);
      forall k :: 0 <= k < |r| ==> offset + k < |v| && r[k] == v[|v| - 1 - offset - k]
    ensures forall k :: 0 <= k < |r| ==> r[k].userId == userId && r[k] in s.txs
  {
    NewestPage(RowsOf(s.txs, userId), offset, limit)
  }

  const DEFAULT_PAGE_SIZE: nat := 20

  /** The totals of `getTransactionSummary`. */
  datatype Summary = Summary(added: int, used: int, expired: int)

  function Abs(x: int): nat {
    if x < 0 then -x else x
  }

  /** Which of the three buckets a row falls in. */
  datatype Bucket = AddedBucket | UsedBucket | ExpiredBucket

  function BucketOf(tx: CreditTx): Bucket {
    if tx.txType == TxType.Expired then ExpiredBucket
    else if tx.amount > 0 then AddedBucket
    else UsedBucket
  }

  /** One step of the `reduce`: the row's magnitude is added to its bucket. */
  function Tally(acc: Summary, tx: CreditTx): Summary {
    match BucketOf(tx)
    case ExpiredBucket => acc.(expired := acc.expired + Abs(tx.amount))
    case AddedBucket => acc.(added := acc.added + tx.amount)
    case UsedBucket => acc.(used := acc.used + Abs(tx.amount))
  }

  /** The `reduce` of `getTransactionSummary`, row by row in order. */
  function Summarize(rows: seq<CreditTx>): (r: Summary)
    ensures r.added >= 0 && r.used >= 0 && r.expired >= 0
  {
    if rows == [] then Summary(0, 0, 0)
    else Tally(Summarize(rows[..|rows| - 1]), rows[|rows| - 1])
  }

  /** Sum of `|amount|` over the rows of one bucket. */
  function BucketTotal(rows: seq<CreditTx>, b: Bucket): nat {
    if rows == [] then 0
    else BucketTotal(rows[..|rows| - 1], b)
         + (if BucketOf(rows[|rows| - 1]) == b then Abs(rows[|rows| - 1].amount) else 0)
  }

  /** Each row lands in exactly one bucket: every total is the sum of the magnitudes of the
      rows classified into it. */
  lemma {:induction false} SummaryIsPerBucket(rows: seq<CreditTx>)
    ensures Summarize(rows) == Summary(BucketTotal(rows, AddedBucket), BucketTotal(rows, UsedBucket),
                                       BucketTotal(rows, ExpiredBucket))
  {
    if rows != [] {
      SummaryIsPerBucket(rows[..|rows| - 1]);
    }
  }

  /** When every `expired` row is a debit (as `expireCredits` writes them), the summary nets
      out to the sum of the amounts: added - used - expired. */
  lemma {:induction false} SummaryNetsToSum(rows: seq<CreditTx>)
    requires forall k :: 0 <= k < |rows| && rows[k].txType == TxType.Expired ==> rows[k].amount <= 0
    ensures var r := Summarize(rows); r.added - r.used - r.expired == SumAmounts(rows)
  {
    if rows != [] {
      SummaryNetsToSum(rows[..|rows| - 1]);
    }
  }

  /** The rows `getTransactionSummary` reads: the user's, with `start <= createdAt <= end`,
      in table order. */
  predicate InWindow(tx: CreditTx, userId: Id, start: int, end: int) {
    tx.userId == userId && start <= tx.createdAt <= end
  }

  function Window(userId: Id, start: int, end: int): CreditTx -> bool {
    (x: CreditTx) => InWindow(x, userId, start, end)
  }

  function InRange(rows: seq<CreditTx>, userId: Id, start: int, end: int): (r: seq<CreditTx>)
    ensures forall x :: x in r <==> x in rows && InWindow(x, userId, start, end)
  {
    Filter(rows, Window(userId, start, end))
  }

  /** `getTransactionSummary`: every total is non-negative, and together they are the
      per-bucket sums over exactly the rows the query selects. */
  function TransactionSummary(s: State, userId: Id, start: int, end: int): (r: Summary)
    ensures r.added >= 0 && r.used >= 0 && r.expired >= 0
    ensures var rows := InRange(s.txs, userId, start, end);
      r == Summary(BucketTotal(rows, AddedBucket), BucketTotal(rows, UsedBucket), BucketTotal(rows, ExpiredBucket))
  {
    SummaryIsPerBucket(InRange(s.txs, userId, start, end));
    Summarize(InRange(s.txs, userId, start, end))
  }

  /** Every row the query selects counts once, in its own bucket, and no other row counts:
      a new row of the user inside the window adds its magnitude to its bucket, and any
      other new row leaves the summary as it was. */
  lemma TransactionSummaryAppend(s: State, tx: CreditTx, userId: Id, start: int, end: int)
    ensures TransactionSummary(s.(txs := s.txs + [tx]), userId, start, end)
            == if InWindow(tx, userId, start, end) then Tally(TransactionSummary(s, userId, start, end), tx)
               else TransactionSummary(s, userId, start, end)
  {
    var p := Window(userId, start, end);
    FilterAppend(s.txs, [tx], p);
    FilterOne(tx, p);
    var rows := InRange(s.txs, userId, start, end);
    var s' := s.(txs := s.txs + [tx]);
    if InWindow(tx, userId, start, end) {
      assert InRange(s'.txs, userId, start, end) == rows + [tx];
      assert (rows + [tx])[..|rows + [tx]| - 1] == rows;
      assert Summarize(rows + [tx]) == Tally(Summarize(rows), tx);
    } else {
      assert InRange(s'.txs, userId, start, end) == rows;
    }
  }

  /** A replayed addition for an existing user changes nothing and reports the earlier row. */
  lemma AddReplay(s: State, userId: Id, amount: int, t: TxType, description: Option<string>,
                  referenceId: Option<string>, now: int)
    requires HasUser(s, userId) && IsReplay(s, t, referenceId)
    ensures Add(s, userId, amount, t, description, referenceId, now)
            == Success((s, AddResult(Balance(s, userId), s.txs[FindByReference(s.txs, referenceId.value, t).value])))
  {
  }

  /** A fresh addition is exactly the two writes of `Post`. */
  lemma AddWrites(s: State, userId: Id, amount: int, t: TxType, description: Option<string>,
                  referenceId: Option<string>, now: int)
    requires HasUser(s, userId) && !IsReplay(s, t, referenceId)
    ensures Add(s, userId, amount, t, description, referenceId, now)
            == Success((Post(s, UserIndex(s.users, userId).value, Balance(s, userId) + amount,
                             CreditTx(s.nextId, userId, amount, t,
                                      description.GetOr("Added " + IntToString(amount) + " credits"), referenceId, now)),
                        AddResult(Balance(s, userId) + amount,
                                  CreditTx(s.nextId, userId, amount, t,
                                           description.GetOr("Added " + IntToString(amount) + " credits"), referenceId, now))))
  {
  }

  /** A deduction that goes through is exactly the two writes of `Post`. */
  lemma DeductWrites(s: State, userId: Id, amount: int, description: Option<string>,
                     referenceId: Option<string>, now: int)
    requires HasUser(s, userId) && Balance(s, userId) >= amount
    ensures Deduct(s, userId, amount, description, referenceId, now)
            == Success((Post(s, UserIndex(s.users, userId).value, Balance(s, userId) - amount,
                             CreditTx(s.nextId, userId, -amount, Usage,
                                      description.GetOr("Used " + IntToString(amount) + " credit(s)"), referenceId, now)),
                        Balance(s, userId) - amount))
  {
  }

  /** `CreditService`, holding the store it writes; every method runs as one transaction. */
  class CreditService {
    const db: Database

    constructor (db: Database)
      ensures this.db == db
    {
      this.db := db;
    }

    /** Set user row `i`'s balance and append one ledger row under the next id: the two
        writes each operation below makes inside its database transaction. */
    method Record(i: nat, credits: int, userId: Id, amount: int, t: TxType, description: string,
                  referenceId: Option<string>, now: int) returns (tx: CreditTx)
      requires i < |db.users|
      modifies db
      ensures tx == CreditTx(old(db.nextId), userId, amount, t, description, referenceId, now)
      ensures db.Snapshot() == Post(old(db.Snapshot()), i, credits, tx)
    {
      db.users := db.users[i := db.users[i].(credits := credits)];
      var id := db.FreshId();
      tx := CreditTx(id, userId, amount, t, description, referenceId, now);
      db.transactions := db.transactions + [tx];
    }

    method AddCredits(userId: Id, amount: int, t: TxType, description: Option<string>,
                      referenceId: Option<string>, now: int) returns (r: Result<AddResult, LedgerError>)
      modifies db
      ensures Applied(Add(old(db.Snapshot()), userId, amount, t, description, referenceId, now), r,
                      db.Snapshot(), old(db.Snapshot()))
    {
      ghost var s0 := db.Snapshot();
      if Truthy(referenceId) {
        var existing := FindByReference(db.transactions, referenceId.value, t);
        if existing.Some? {
          var idx := UserIndex(db.users, userId);
          if idx.None? {
            return Failure(UserNotFound);
          }
          AddReplay(s0, userId, amount, t, description, referenceId, now);
          return Success(AddResult(db.users[idx.value].credits, db.transactions[existing.value]));
        }
      }
      var idx := UserIndex(db.users, userId);
      if idx.None? {
        return Failure(UserNotFound);
      }
      AddWrites(s0, userId, amount, t, description, referenceId, now);
      var credits := db.users[idx.value].credits + amount;
      var tx := Record(idx.value, credits, userId, amount, t,
                       description.GetOr("Added " + IntToString(amount) + " credits"), referenceId, now);
      r := Success(AddResult(credits, tx));
    }

    method DeductCredits(userId: Id, amount: int, description: Option<string>,
                         referenceId: Option<string>, now: int) returns (r: Result<int, LedgerError>)
      modifies db
      ensures Applied(Deduct(old(db.Snapshot()), userId, amount, description, referenceId, now), r,
                      db.Snapshot(), old(db.Snapshot()))
    {
      var idx := UserIndex(db.users, userId);
      if idx.None? {
        return Failure(UserNotFound);
      }
      var user := db.users[idx.value];
      if user.credits < amount {
        return Failure(InsufficientCredits);
      }
      DeductWrites(db.Snapshot(), userId, amount, description, referenceId, now);
      var _ := Record(idx.value, user.credits - amount, userId, -amount, Usage,
                      description.GetOr("Used " + IntToString(amount) + " credit(s)"), referenceId, now);
      r := Success(user.credits - amount);
    }

    method ExpireCredits(userId: Id, subscriptionId: string, now: int) returns (r: Result<int, LedgerError>)
      modifies db
      ensures Applied(Expire(old(db.Snapshot()), userId, subscriptionId, now), r,
                      db.Snapshot(), old(db.Snapshot()))
    {
      var idx := UserIndex(db.users, userId);
      if idx.None? {
        return Failure(UserNotFound);
      }
      var user := db.users[idx.value];
      var expired := user.credits;
      if expired <= 0 {
        return Success(0);
      }
      var _ := Record(idx.value, 0, userId, -expired, TxType.Expired,
                      "Expired " + IntToString(expired) + " unused credits", Some(subscriptionId), now);
      r := Success(expired);
    }
  }
}
