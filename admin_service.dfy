/** `AdminService`: the all-or-nothing bulk credit grant, the revenue and user-growth day
    series, the storage totals, the filtered transaction listing and its CSV export, the
    sweep of old output files and the maintenance switch. */
module Admin {
  import opened Wrappers
  import opened Text
  import opened PricingTypes
  import opened Db
  import opened Credits
  import opened Storage
  import Subscriptions

  // ----- Credit grants -----

  /** One `user.update` that increments `credits` and creates a ledger row without a
      reference: the balance rises by `amount` and exactly that row is appended. */
  function Grant(s: State, userId: Id, amount: int, t: TxType, description: string, now: int)
    : (r: Result<State, LedgerError>)
    ensures r.Failure? <==> !HasUser(s, userId)
    ensures r.Failure? ==> r.error == UserNotFound
    ensures r.Success? ==> Balance(r.value, userId) == Balance(s, userId) + amount
    ensures r.Success? ==>
      r.value.txs == s.txs + [CreditTx(s.nextId, userId, amount, t, description, None, now)]
    ensures r.Success? ==> r.value.nextId == s.nextId + 1
    ensures r.Success? ==> Subscriptions.SameUserIds(s, r.value)
    ensures r.Success? ==> r.value.(users := s.users, txs := s.txs, nextId := s.nextId) == s
  {
    match UserIndex(s.users, userId)
    case None => Failure(UserNotFound)
    case Some(i) =>
      var tx := CreditTx(s.nextId, userId, amount, t, description, None, now);
      PostIsLedgerStep(s, userId, s.users[i].credits + amount, tx);
      Subscriptions.LedgerStepKeepsUserIds(s, Post(s, i, s.users[i].credits + amount, tx), userId);
      Success(Post(s, i, s.users[i].credits + amount, tx))
  }

  /** A grant to an existing user is exactly the two writes of `Post`. */
  lemma GrantWrites(s: State, userId: Id, amount: int, t: TxType, description: string, now: int)
    requires HasUser(s, userId)
    ensures Grant(s, userId, amount, t, description, now)
            == Success(Post(s, UserIndex(s.users, userId).value, Balance(s, userId) + amount,
                            CreditTx(s.nextId, userId, amount, t, description, None, now)))
  {
  }

  /** A grant is one ledger step: only the user's balance changes, by the amount of the one
      row it appends. */
  lemma GrantIsLedgerStep(s: State, userId: Id, amount: int, t: TxType, description: string, now: int)
    requires HasUser(s, userId)
    ensures LedgerStep(s, Grant(s, userId, amount, t, description, now).value, userId)
  {
    var i := UserIndex(s.users, userId).value;
    PostIsLedgerStep(s, userId, s.users[i].credits + amount,
                     CreditTx(s.nextId, userId, amount, t, description, None, now));
  }

  /** A grant to `u` leaves every other user's balance where it was. */
  lemma GrantLeavesOthers(s: State, u: Id, amount: int, t: TxType, description: string, now: int, v: Id)
    requires HasUser(s, u) && v != u
    ensures Balance(Grant(s, u, amount, t, description, now).value, v) == Balance(s, v)
  {
    var s' := Grant(s, u, amount, t, description, now).value;
    GrantIsLedgerStep(s, u, amount, t, description, now);
    Subscriptions.SameUserIdsHasUser(s, s', v);
  }

  /** A grant moves the balance of its user by `amount` and of nobody else. */
  lemma GrantBalance(s: State, u: Id, amount: int, t: TxType, description: string, now: int, v: Id)
    requires HasUser(s, u)
    ensures Balance(Grant(s, u, amount, t, description, now).value, v)
            == Balance(s, v) + (if v == u then amount else 0)
  {
    if v != u {
      GrantLeavesOthers(s, u, amount, t, description, now, v);
    }
  }

  lemma ScaleStep(base: int, prior: int, next: int, amount: int, m: nat, m': nat, hit: bool)
    requires prior == base + amount * m
    requires next == prior + (if hit then amount else 0)
    requires m' == m + (if hit then 1 else 0)
    ensures next == base + amount * m'
  {
  }

  lemma CountOfAppend(p: seq<Id>, u: Id, v: Id)
    ensures multiset(p + [u])[v] == multiset(p)[v] + (if v == u then 1 else 0)
  {
    assert multiset(p + [u]) == multiset(p) + multiset{u};
  }

  /** `bulkGrantCredits`: one `bonus` grant per list entry, in list order, inside one
      database transaction, so a missing user fails the whole batch. */
  function BulkGrant(s: State, userIds: seq<Id>, amount: int, description: string, now: int)
    : (r: Result<State, LedgerError>)
    ensures r.Failure? ==> r.error == UserNotFound
    ensures r.Success? ==> Subscriptions.SameUserIds(s, r.value)
    ensures r.Success? ==> r.value.nextId == s.nextId + |userIds|
    ensures r.Success? ==> r.value.(users := s.users, txs := s.txs, nextId := s.nextId) == s
    decreases |userIds|
  {
    if userIds == [] then Success(s)
    else
      var prior :- BulkGrant(s, userIds[..|userIds| - 1], amount, description, now);
      Grant(prior, userIds[|userIds| - 1], amount, Bonus, description, now)
  }

  /** A successful batch is the batch without its last entry followed by one more grant. */
  lemma BulkGrantLast(s: State, userIds: seq<Id>, amount: int, description: string, now: int)
    requires userIds != []
    requires BulkGrant(s, userIds, amount, description, now).Success?
    ensures var prior := BulkGrant(s, userIds[..|userIds| - 1], amount, description, now);
      && prior.Success?
      && BulkGrant(s, userIds, amount, description, now)
         == Grant(prior.value, userIds[|userIds| - 1], amount, Bonus, description, now)
  {
  }

  /** Every listed id names a user. */
  predicate AllKnown(s: State, userIds: seq<Id>) {
    forall k :: 0 <= k < |userIds| ==> HasUser(s, userIds[k])
  }

  lemma AllKnownLast(s: State, userIds: seq<Id>)
    requires userIds != []
    ensures AllKnown(s, userIds)
            <==> AllKnown(s, userIds[..|userIds| - 1]) && HasUser(s, userIds[|userIds| - 1])
  {
    var p := userIds[..|userIds| - 1];
    assert forall k :: 0 <= k < |p| ==> p[k] == userIds[k];
  }

  /** The batch succeeds exactly when every listed id names a user. */
  lemma {:induction false} BulkGrantSucceedsIff(s: State, userIds: seq<Id>, amount: int, description: string, now: int)
    ensures BulkGrant(s, userIds, amount, description, now).Success? <==> AllKnown(s, userIds)
    decreases |userIds|
  {
    if userIds != [] {
      var n := |userIds|;
      var p := userIds[..n - 1];
      BulkGrantSucceedsIff(s, p, amount, description, now);
      AllKnownLast(s, userIds);
      var prior := BulkGrant(s, p, amount, description, now);
      if prior.Success? {
        Subscriptions.SameUserIdsHasUser(s, prior.value, userIds[n - 1]);
        assert BulkGrant(s, userIds, amount, description, now)
               == Grant(prior.value, userIds[n - 1], amount, Bonus, description, now);
      } else {
        assert BulkGrant(s, userIds, amount, description, now).Failure?;
      }
    }
  }

  /** Extending a successful prefix of the list by one entry adds one grant. */
  lemma BulkGrantExtend(s: State, userIds: seq<Id>, i: nat, amount: int, description: string, now: int)
    requires i < |userIds|
    requires BulkGrant(s, userIds[..i], amount, description, now).Success?
    ensures BulkGrant(s, userIds[..i + 1], amount, description, now)
            == Grant(BulkGrant(s, userIds[..i], amount, description, now).value, userIds[i], amount, Bonus, description, now)
  {
    assert userIds[..i + 1][..i] == userIds[..i];
  }

  /** A failing prefix of the list fails the whole batch. */
  lemma {:induction false} BulkGrantPrefixFails(s: State, userIds: seq<Id>, k: nat, amount: int, description: string, now: int)
    requires k <= |userIds|
    requires BulkGrant(s, userIds[..k], amount, description, now).Failure?
    ensures BulkGrant(s, userIds, amount, description, now).Failure?
    decreases |userIds| - k
  {
    if k < |userIds| {
      var p := userIds[..|userIds| - 1];
      assert p[..k] == userIds[..k];
      BulkGrantPrefixFails(s, p, k, amount, description, now);
    } else {
      assert userIds[..k] == userIds;
    }
  }

  /** A successful batch appends one `bonus` row per list entry, in list order, with the
      entry's user, the amount and the description. */
  lemma {:induction false} BulkGrantRows(s: State, userIds: seq<Id>, amount: int, description: string, now: int)
    requires BulkGrant(s, userIds, amount, description, now).Success?
    ensures var s' := BulkGrant(s, userIds, amount, description, now).value;
      && |s'.txs| == |s.txs| + |userIds|
      && s'.txs[..|s.txs|] == s.txs
      && forall k :: 0 <= k < |userIds| ==>
           s'.txs[|s.txs| + k] == CreditTx(s.nextId + k, userIds[k], amount, Bonus, description, None, now)
    decreases |userIds|
  {
    if userIds != [] {
      var n := |userIds|;
      var p := userIds[..n - 1];
      BulkGrantRows(s, p, amount, description, now);
      var prior := BulkGrant(s, p, amount, description, now).value;
      var s' := Grant(prior, userIds[n - 1], amount, Bonus, description, now).value;
      assert BulkGrant(s, userIds, amount, description, now).value == s';
      forall k | 0 <= k < n
        ensures s'.txs[|s.txs| + k] == CreditTx(s.nextId + k, userIds[k], amount, Bonus, description, None, now)
      {
        if k < n - 1 {
          assert p[k] == userIds[k];
        }
      }
    }
  }

  /** A successful batch raises each user's balance by `amount` once per occurrence of
      their id in the list. */
  lemma {:induction false} BulkGrantBalances(s: State, userIds: seq<Id>, amount: int, description: string, now: int, v: Id)
    requires BulkGrant(s, userIds, amount, description, now).Success?
    ensures Balance(BulkGrant(s, userIds, amount, description, now).value, v)
            == Balance(s, v) + amount * multiset(userIds)[v]
    decreases |userIds|
  {
    if userIds == [] {
    } else {
      var n := |userIds|;
      var p := userIds[..n - 1];
      var u := userIds[n - 1];
      BulkGrantBalances(s, p, amount, description, now, v);
      BulkGrantLast(s, userIds, amount, description, now);
      var prior := BulkGrant(s, p, amount, description, now).value;
      GrantBalance(prior, u, amount, Bonus, description, now, v);
      assert userIds == p + [u];
      CountOfAppend(p, u, v);
      var before: multiset<Id> := multiset(p);
      var after: multiset<Id> := multiset(userIds);
      ScaleStep(Balance(s, v), Balance(prior, v), Balance(BulkGrant(s, userIds, amount, description, now).value, v),
                amount, before[v], after[v], v == u);
    }
  }

  /** The batch keeps every user's balance equal to the sum of their ledger rows. */
  lemma {:induction false} BulkGrantKeepsBalanced(s: State, userIds: seq<Id>, amount: int, description: string, now: int, v: Id)
    requires BulkGrant(s, userIds, amount, description, now).Success?
    requires Balanced(s, v)
    ensures Balanced(BulkGrant(s, userIds, amount, description, now).value, v)
    decreases |userIds|
  {
    if userIds != [] {
      var n := |userIds|;
      var p := userIds[..n - 1];
      BulkGrantKeepsBalanced(s, p, amount, description, now, v);
      var prior := BulkGrant(s, p, amount, description, now).value;
      GrantIsLedgerStep(prior, userIds[n - 1], amount, Bonus, description, now);
      LedgerStepKeepsBalanced(prior, BulkGrant(s, userIds, amount, description, now).value, userIds[n - 1], v);
    }
  }

  // ----- Day series -----

  /** Sum of `amount` over the rows that have a key. */
  function Total<T>(rows: seq<T>, key: T -> Option<string>, amount: T -> int): int {
    if rows == [] then 0
    else
      var last := rows[|rows| - 1];
      Total(rows[..|rows| - 1], key, amount) + (if key(last).Some? then amount(last) else 0)
  }

  /** Sum of `amount` over the rows whose key is `k`. */
  function KeyTotal<T>(rows: seq<T>, key: T -> Option<string>, amount: T -> int, k: string): int {
    if rows == [] then 0
    else
      var last := rows[|rows| - 1];
      KeyTotal(rows[..|rows| - 1], key, amount, k) + (if key(last) == Some(k) then amount(last) else 0)
  }

  /** The keys that occur among the rows. */
  function KeysOf<T>(rows: seq<T>, key: T -> Option<string>): set<string> {
    if rows == [] then {}
    else
      var last := rows[|rows| - 1];
      KeysOf(rows[..|rows| - 1], key) + (if key(last).Some? then {key(last).value} else {})
  }

  /** The keys in the order they first occur among the rows, each once. */
  function FirstKeys<T>(rows: seq<T>, key: T -> Option<string>): seq<string> {
    if rows == [] then []
    else
      var prev := FirstKeys(rows[..|rows| - 1], key);
      var last := rows[|rows| - 1];
      if key(last).Some? && key(last).value !in prev then prev + [key(last).value] else prev
  }

  /** Sum of the values of a series. */
  function EntriesTotal(entries: seq<(string, int)>): int {
    if entries == [] then 0 else EntriesTotal(entries[..|entries| - 1]) + entries[|entries| - 1].1
  }

  function EntryKeys(entries: seq<(string, int)>): set<string> {
    set e | e in entries :: e.0
  }

  predicate DistinctKeys(order: seq<string>) {
    forall i, j :: 0 <= i < j < |order| ==> order[i] != order[j]
  }

  /** Sum of a dictionary's values, visited in `order`. */
  function KeysTotal(order: seq<string>, m: map<string, int>): int
    requires forall k :: k in order ==> k in m
  {
    if order == [] then 0 else KeysTotal(order[..|order| - 1], m) + m[order[|order| - 1]]
  }

  lemma {:induction false} KeysTotalFrame(order: seq<string>, m: map<string, int>, k: string, v: int)
    requires forall x :: x in order ==> x in m
    requires k !in order
    ensures KeysTotal(order, m[k := v]) == KeysTotal(order, m)
  {
    if order != [] {
      KeysTotalFrame(order[..|order| - 1], m, k, v);
    }
  }

  lemma {:induction false} KeysTotalBump(order: seq<string>, m: map<string, int>, k: string, d: int)
    requires forall x :: x in order ==> x in m
    requires DistinctKeys(order) && k in order
    ensures KeysTotal(order, m[k := m[k] + d]) == KeysTotal(order, m) + d
  {
    var n := |order|;
    var p := order[..n - 1];
    if order[n - 1] == k {
      forall j | 0 <= j < n - 1
        ensures p[j] != k
      {
      }
      KeysTotalFrame(p, m, k, m[k] + d);
    } else {
      assert k in p;
      KeysTotalBump(p, m, k, d);
    }
  }

  lemma {:induction false} KeyTotalOfAbsentKey<T>(rows: seq<T>, key: T -> Option<string>, amount: T -> int, k: string)
    requires k !in KeysOf(rows, key)
    ensures KeyTotal(rows, key, amount, k) == 0
  {
    if rows != [] {
      KeyTotalOfAbsentKey(rows[..|rows| - 1], key, amount, k);
    }
  }

  lemma {:induction false} EntriesTotalOf(order: seq<string>, m: map<string, int>, entries: seq<(string, int)>)
    requires forall x :: x in order ==> x in m
    requires |entries| == |order|
    requires forall j :: 0 <= j < |order| ==> entries[j] == (order[j], m[order[j]])
    ensures EntriesTotal(entries) == KeysTotal(order, m)
  {
    if order != [] {
      var n := |order|;
      EntriesTotalOf(order[..n - 1], m, entries[..n - 1]);
    }
  }

  /** What the `forEach` has built after `rows`: `order` lists the dictionary's keys once
      each, in insertion order, the keys are those of the rows, each maps to its key's
      total, and the values add up to the total of the keyed rows. */
  ghost predicate Grouped<T>(rows: seq<T>, key: T -> Option<string>, amount: T -> int,
                             order: seq<string>, grouped: map<string, int>) {
    && (forall k :: k in order <==> k in grouped)
    && DistinctKeys(order)
    && grouped.Keys == KeysOf(rows, key)
    && (forall k :: k in grouped ==> grouped[k] == KeyTotal(rows, key, amount, k))
    && KeysTotal(order, grouped) == Total(rows, key, amount)
  }

  /** Folding one more row into the sums: the last-row cases of the three totals. */
  lemma AppendRow<T>(rows: seq<T>, row: T, key: T -> Option<string>, amount: T -> int)
    ensures Total(rows + [row], key, amount) == Total(rows, key, amount) + (if key(row).Some? then amount(row) else 0)
    ensures KeysOf(rows + [row], key) == KeysOf(rows, key) + (if key(row).Some? then {key(row).value} else {})
    ensures forall k :: KeyTotal(rows + [row], key, amount, k)
                        == KeyTotal(rows, key, amount, k) + (if key(row) == Some(k) then amount(row) else 0)
  {
    assert (rows + [row])[..|rows|] == rows;
  }

  lemma GroupedSkip<T>(rows: seq<T>, row: T, key: T -> Option<string>, amount: T -> int,
                       order: seq<string>, grouped: map<string, int>)
    requires Grouped(rows, key, amount, order, grouped)
    requires key(row).None?
    ensures Grouped(rows + [row], key, amount, order, grouped)
  {
    AppendRow(rows, row, key, amount);
  }

  lemma GroupedBump<T>(rows: seq<T>, row: T, key: T -> Option<string>, amount: T -> int,
                       order: seq<string>, grouped: map<string, int>, k: string)
    requires Grouped(rows, key, amount, order, grouped)
    requires key(row) == Some(k) && k in grouped
    ensures Grouped(rows + [row], key, amount, order, grouped[k := grouped[k] + amount(row)])
  {
    AppendRow(rows, row, key, amount);
    KeysTotalBump(order, grouped, k, amount(row));
  }

  lemma GroupedAdd<T>(rows: seq<T>, row: T, key: T -> Option<string>, amount: T -> int,
                      order: seq<string>, grouped: map<string, int>, k: string)
    requires Grouped(rows, key, amount, order, grouped)
    requires key(row) == Some(k) && k !in grouped
    ensures Grouped(rows + [row], key, amount, order + [k], grouped[k := amount(row)])
  {
    AppendRow(rows, row, key, amount);
    KeyTotalOfAbsentKey(rows, key, amount, k);
    KeysTotalFrame(order, grouped, k, amount(row));
    var order' := order + [k];
    assert order'[..|order|] == order;
    assert forall i :: 0 <= i < |order| ==> order'[i] == order[i];
  }

  /** One more row adds its key to the first-occurrence order when the key is new. */
  lemma FirstKeysAppend<T>(rows: seq<T>, row: T, key: T -> Option<string>)
    ensures var prev := FirstKeys(rows, key);
      FirstKeys(rows + [row], key)
        == if key(row).Some? && key(row).value !in prev then prev + [key(row).value] else prev
  {
    assert (rows + [row])[..|rows|] == rows;
  }

  /** The `forEach` into the `grouped` dictionary followed by `Object.entries`: rows without
      a key are skipped, every other row adds its amount to its key's entry, an absent entry
      counting as 0. The result has one entry per key, in the order the keys first occur
      (the insertion order that `Object.entries` keeps for keys that are not array indices),
      each holding its key's total, and the entries together hold the total of all keyed
      rows. */
  method GroupSum<T>(rows: seq<T>, key: T -> Option<string>, amount: T -> int) returns (entries: seq<(string, int)>)
    ensures |entries| == |FirstKeys(rows, key)|
    ensures forall j :: 0 <= j < |entries| ==> entries[j].0 == FirstKeys(rows, key)[j]
    ensures forall i, j :: 0 <= i < j < |entries| ==> entries[i].0 != entries[j].0
    ensures EntryKeys(entries) == KeysOf(rows, key)
    ensures forall j :: 0 <= j < |entries| ==> entries[j].1 == KeyTotal(rows, key, amount, entries[j].0)
    ensures EntriesTotal(entries) == Total(rows, key, amount)
  {
    var grouped: map<string, int> := map[];
    var order: seq<string> := [];
    var i := 0;
    while i < |rows|
      invariant 0 <= i <= |rows|
      invariant Grouped(rows[..i], key, amount, order, grouped)
      invariant order == FirstKeys(rows[..i], key)
    {
      assert rows[..i + 1] == rows[..i] + [rows[i]];
      var row := rows[i];
      FirstKeysAppend(rows[..i], row, key);
      match key(row) {
        case None =>
          GroupedSkip(rows[..i], row, key, amount, order, grouped);
        case Some(k) =>
          if k in grouped {
            GroupedBump(rows[..i], row, key, amount, order, grouped, k);
            grouped := grouped[k := grouped[k] + amount(row)];
          } else {
            GroupedAdd(rows[..i], row, key, amount, order, grouped, k);
            grouped := grouped[k := amount(row)];
            order := order + [k];
          }
      }
      i := i + 1;
    }
    assert rows[..i] == rows;
    entries := seq(|order|, j requires 0 <= j < |order| => (order[j], grouped[order[j]]));
    EntriesTotalOf(order, grouped, entries);
    forall k | k in grouped
      ensures k in EntryKeys(entries)
    {
      var j :| 0 <= j < |order| && order[j] == k;
      assert entries[j] in entries;
    }
  }

  /** The day a paid payment counts towards (`paidAt.toISOString().split('T')[0]`, given
      as `dayOf`); a payment without `paidAt` counts towards none. */
  function RevenueKey(dayOf: int -> string): Payment -> Option<string> {
    (p: Payment) => if p.paidAt.Some? then Some(dayOf(p.paidAt.value)) else None
  }

  function PaymentAmount(p: Payment): int {
    p.amount
  }

  /** The rows are in ascending order of `at`. */
  predicate Ascending<T>(rows: seq<T>, at: T -> int) {
    forall i, j :: 0 <= i < j < |rows| ==> at(rows[i]) <= at(rows[j])
  }

  /** `row` placed into ascending rows after every row that is not later than it. */
  function InsertAscending<T>(row: T, rows: seq<T>, at: T -> int): (r: seq<T>)
    requires Ascending(rows, at)
    ensures Ascending(r, at)
    ensures multiset(r) == multiset(rows) + multiset{row}
    ensures r != [] && (r[0] == row || (rows != [] && r[0] == rows[0]))
  {
    if rows == [] || at(row) < at(rows[0]) then [row] + rows
    else
      var rest := InsertAscending(row, rows[1..], at);
      assert rows == [rows[0]] + rows[1..];
      [rows[0]] + rest
  }

  /** `orderBy: { field: 'asc' }`: the rows in ascending order of the field; rows with equal
      values keep their table order. */
  function SortAscending<T>(rows: seq<T>, at: T -> int): (r: seq<T>)
    ensures Ascending(r, at)
    ensures multiset(r) == multiset(rows)
  {
    if rows == [] then []
    else
      assert rows == rows[..|rows| - 1] + [rows[|rows| - 1]];
      InsertAscending(rows[|rows| - 1], SortAscending(rows[..|rows| - 1], at), at)
  }

  /** Sorting keeps exactly the rows it was given. */
  lemma SortKeepsMembers<T>(rows: seq<T>, at: T -> int)
    ensures forall x :: x in SortAscending(rows, at) <==> x in rows
  {
    var r := SortAscending(rows, at);
    forall x
      ensures x in r <==> x in rows
    {
      assert x in r <==> x in multiset(r);
      assert x in rows <==> x in multiset(rows);
    }
  }

  /** The `where` of `getRevenueStats`: paid, with `paidAt` at or after the start. */
  predicate IsRevenue(p: Payment, startDate: int) {
    p.status == "paid" && p.paidAt.Some? && p.paidAt.value >= startDate
  }

  function RevenueFilter(startDate: int): Payment -> bool {
    (p: Payment) => IsRevenue(p, startDate)
  }

  /** The payment time, which every selected payment has. */
  function PaidAt(p: Payment): int {
    p.paidAt.GetOr(0)
  }

  /** The query of `getRevenueStats`: the paid payments with `paidAt` at or after the start,
      each as often as in the table, in ascending order of `paidAt`. */
  function RevenueRows(payments: seq<Payment>, startDate: int): (r: seq<Payment>)
    ensures forall p :: p in r <==> p in payments && IsRevenue(p, startDate)
    ensures multiset(r) == multiset(Filter(payments, RevenueFilter(startDate)))
    ensures forall i, j :: 0 <= i < j < |r| ==> PaidAt(r[i]) <= PaidAt(r[j])
  {
    var selected := Filter(payments, RevenueFilter(startDate));
    var r := SortAscending(selected, PaidAt);
    SortKeepsMembers(selected, PaidAt);
    r
  }

  /** Total amount of the payments that carry a `paidAt`. */
  function PaidTotal(payments: seq<Payment>): int {
    if payments == [] then 0
    else PaidTotal(payments[..|payments| - 1])
         + (if payments[|payments| - 1].paidAt.Some? then payments[|payments| - 1].amount else 0)
  }

  lemma {:induction false} RevenueTotalIsPaidTotal(payments: seq<Payment>, dayOf: int -> string)
    ensures Total(payments, RevenueKey(dayOf), PaymentAmount) == PaidTotal(payments)
  {
    if payments != [] {
      RevenueTotalIsPaidTotal(payments[..|payments| - 1], dayOf);
    }
  }

  /** The day a user signed up on. */
  function SignupKey(dayOf: int -> string): User -> Option<string> {
    (u: User) => Some(dayOf(u.createdAt))
  }

  function One(u: User): int {
    1
  }

  function SignupFilter(startDate: int): User -> bool {
    (u: User) => u.createdAt >= startDate
  }

  function CreatedAt(u: User): int {
    u.createdAt
  }

  /** The query of `getUserGrowthStats`: the users created at or after the start, in
      ascending order of `createdAt`. */
  function SignupRows(users: seq<User>, startDate: int): (r: seq<User>)
    ensures forall u :: u in r <==> u in users && u.createdAt >= startDate
    ensures multiset(r) == multiset(Filter(users, SignupFilter(startDate)))
    ensures forall i, j :: 0 <= i < j < |r| ==> r[i].createdAt <= r[j].createdAt
  {
    var selected := Filter(users, SignupFilter(startDate));
    SortKeepsMembers(selected, CreatedAt);
    SortAscending(selected, CreatedAt)
  }

  lemma {:induction false} SignupTotalIsCount(users: seq<User>, dayOf: int -> string)
    ensures Total(users, SignupKey(dayOf), One) == |users|
  {
    if users != [] {
      SignupTotalIsCount(users[..|users| - 1], dayOf);
    }
  }

  // ----- Storage totals -----

  /** Sum of the listed sizes, a missing size counting as 0: zero exactly when every
      listed size is zero or missing. */
  function TotalSize(objects: seq<ListedObject>): (r: nat)
    ensures r == 0 <==> forall k :: 0 <= k < |objects| ==> objects[k].size.GetOr(0) == 0
  {
    if objects == [] then 0
    else
      var init := objects[..|objects| - 1];
      assert forall k :: 0 <= k < |init| ==> init[k] == objects[k];
      TotalSize(init) + objects[|objects| - 1].size.GetOr(0)
  }

  lemma {:induction false} TotalSizeAppend(a: seq<ListedObject>, b: seq<ListedObject>)
    ensures TotalSize(a + b) == TotalSize(a) + TotalSize(b)
    decreases |b|
  {
    if b == [] {
      assert a + b == a;
    } else {
      assert (a + b)[..|a + b| - 1] == a + b[..|b| - 1];
      assert (a + b)[|a + b| - 1] == b[|b| - 1];
      TotalSizeAppend(a, b[..|b| - 1]);
    }
  }

  lemma {:induction false} TotalSizeBoundsEach(objects: seq<ListedObject>, k: nat)
    requires k < |objects|
    ensures objects[k].size.GetOr(0) <= TotalSize(objects)
  {
    if k < |objects| - 1 {
      TotalSizeBoundsEach(objects[..|objects| - 1], k);
    }
  }

  datatype StorageSummary = StorageSummary(count: nat, sizeBytes: nat)

  /** `getStorageStats` over the listing's `Contents` (absent when the bucket is empty). */
  function StorageStats(contents: Option<seq<ListedObject>>): (r: StorageSummary)
    ensures r.count == |contents.GetOr([])|
    ensures r.sizeBytes == TotalSize(contents.GetOr([]))
    ensures r.sizeBytes == 0
            <==> forall k :: 0 <= k < |contents.GetOr([])| ==> contents.GetOr([])[k].size.GetOr(0) == 0
  {
    var objects := contents.GetOr([]);
    StorageSummary(|objects|, TotalSize(objects))
  }

  // ----- Transaction listing -----

  /** The parameters of `getCreditTransactions`; an absent or `NaN` number is `None`. */
  datatype TxQuery = TxQuery(
    userId: Option<string>,
    txType: Option<string>,
    startDate: Option<int>,
    endDate: Option<int>,
    limit: Option<nat>,
    offset: Option<int>)

  datatype DateRange = DateRange(gte: Option<int>, lte: Option<int>)

  /** The `where` object: each present field is one condition. */
  datatype TxWhere = TxWhere(userId: Option<string>, txType: Option<string>, createdAt: Option<DateRange>)

  predicate Satisfies(w: TxWhere, tx: CreditTx) {
    && (w.userId.Some? ==> NatToString(tx.userId) == w.userId.value)
    && (w.txType.Some? ==> tx.txType.Name() == w.txType.value)
    && (w.createdAt.Some? ==>
          && (w.createdAt.value.gte.Some? ==> tx.createdAt >= w.createdAt.value.gte.value)
          && (w.createdAt.value.lte.Some? ==> tx.createdAt <= w.createdAt.value.lte.value))
  }

  /** The rows the parameters ask for: empty strings filter nothing, and a date bound
      (a `Date` object, always truthy) filters when given. */
  predicate Selected(q: TxQuery, tx: CreditTx) {
    && (Truthy(q.userId) ==> NatToString(tx.userId) == q.userId.value)
    && (Truthy(q.txType) ==> tx.txType.Name() == q.txType.value)
    && (q.startDate.Some? ==> q.startDate.value <= tx.createdAt)
    && (q.endDate.Some? ==> tx.createdAt <= q.endDate.value)
  }

  /** The `where` object built field by field selects exactly the requested rows. */
  method BuildWhere(q: TxQuery) returns (w: TxWhere)
    ensures forall tx :: Satisfies(w, tx) <==> Selected(q, tx)
  {
    w := TxWhere(None, None, None);
    if Truthy(q.userId) {
      w := w.(userId := q.userId);
    }
    if Truthy(q.txType) {
      w := w.(txType := q.txType);
    }
    if q.startDate.Some? || q.endDate.Some? {
      var range := DateRange(None, None);
      if q.startDate.Some? {
        range := range.(gte := q.startDate);
      }
      if q.endDate.Some? {
        range := range.(lte := q.endDate);
      }
      w := w.(createdAt := Some(range));
    }
  }

  /** `take: params.limit || 50`. */
  function Take(q: TxQuery): (n: nat)
    ensures n >= 1
    ensures q.limit.Some? && q.limit.value != 0 ==> n == q.limit.value
  {
    if q.limit.Some? && q.limit.value != 0 then q.limit.value else 50
  }

  /** `skip: params.offset || 0`, which the store refuses when negative. */
  function Skip(q: TxQuery): int {
    if q.offset.Some? then q.offset.value else 0
  }

  datatype QueryError = NegativeSkip

  /** The ledger rows the parameters select, in table order. */
  function Matching(s: State, q: TxQuery): (r: seq<CreditTx>)
    ensures forall tx :: tx in r <==> tx in s.txs && Selected(q, tx)
  {
    Filter(s.txs, (tx: CreditTx) => Selected(q, tx))
  }

  /** `getCreditTransactions`: one page of the selected rows, newest first, and the number
      of selected rows. */
  function CreditTransactions(s: State, q: TxQuery): (r: Result<(seq<CreditTx>, nat), QueryError>)
    ensures r.Failure? <==> Skip(q) < 0
    ensures r.Success? ==> r.value.1 == |Matching(s, q)|
    ensures r.Success? ==> |r.value.0| <= Take(q)
    ensures r.Success? ==>
      |r.value.0| == (if Skip(q) >= r.value.1 then 0
                      else if Skip(q) + Take(q) <= r.value.1 then Take(q)
                      else r.value.1 - Skip(q))
    ensures r.Success? ==> (r.value.0 == [] <==> Skip(q) >= r.value.1)
    ensures r.Success? ==> r.value.0 == [] || Skip(q) + |r.value.0| <= r.value.1
    ensures r.Success? ==> forall k :: 0 <= k < |r.value.0| ==>
      r.value.0[k] == Matching(s, q)[r.value.1 - 1 - (Skip(q) + k)]
    ensures r.Success? ==> forall tx :: tx in r.value.0 ==> tx in s.txs && Selected(q, tx)
  {
    if Skip(q) < 0 then Failure(NegativeSkip)
    else
      var rows := Matching(s, q);
      Success((NewestPage(rows, Skip(q), Take(q)), |rows|))
  }

  // ----- CSV export -----

  const CSV_COLUMNS := ["ID", "User", "Type", "Amount", "Description", "Reference", "Date"]
  const CSV_HEADER_LINE := Join(CSV_COLUMNS, ",")

  /** `replace(/"/g, '""')`. */
  function EscapeQuotes(d: string): (r: string)
    ensures |r| >= |d|
    ensures forall c :: c != '"' ==> (c in r <==> c in d)
  {
    if d == [] then [] else (if d[0] == '"' then "\"\"" else [d[0]]) + EscapeQuotes(d[1..])
  }

  /** A description as a quoted CSV field. */
  function QuoteField(d: string): string {
    "\"" + EscapeQuotes(d) + "\""
  }

  /** Reading the inside of a quoted field back (section 2 rule 7 of RFC 4180): `""` stands
      for one `"`, and a lone `"` would have ended the field, so it is malformed here. */
  function UnescapeQuotes(e: string): Option<string> {
    if e == [] then Some([])
    else if e[0] == '"' then
      if |e| >= 2 && e[1] == '"' then
        match UnescapeQuotes(e[2..])
        case None => None
        case Some(rest) => Some("\"" + rest)
      else None
    else
      match UnescapeQuotes(e[1..])
      case None => None
      case Some(rest) => Some([e[0]] + rest)
  }

  function UnquoteField(f: string): Option<string> {
    if |f| >= 2 && f[0] == '"' && f[|f| - 1] == '"' then UnescapeQuotes(f[1..|f| - 1]) else None
  }

  lemma {:induction false} UnescapeOfEscape(d: string)
    ensures UnescapeQuotes(EscapeQuotes(d)) == Some(d)
  {
    if d != [] {
      UnescapeOfEscape(d[1..]);
      var e := EscapeQuotes(d);
      if d[0] == '"' {
        assert e == "\"\"" + EscapeQuotes(d[1..]);
        assert e[2..] == EscapeQuotes(d[1..]);
      } else {
        assert e == [d[0]] + EscapeQuotes(d[1..]);
        assert e[1..] == EscapeQuotes(d[1..]);
      }
      assert [d[0]] + d[1..] == d;
    }
  }

  /** Decoding the quoted description field gives back the description. */
  lemma QuoteRoundTrip(d: string)
    ensures UnquoteField(QuoteField(d)) == Some(d)
  {
    var f := QuoteField(d);
    assert f[1..|f| - 1] == EscapeQuotes(d);
    UnescapeOfEscape(d);
  }

  /** A number's decimal digits hold no line break. */
  lemma DigitsHaveNoBreak(n: nat)
    ensures '\n' !in NatToString(n)
  {
    var s := NatToString(n);
    forall i | 0 <= i < |s| ensures s[i] != '\n' {
      assert IsDigit(s[i]);
    }
  }

  /** The seven fields of one CSV line, in column order. */
  function CsvFields(tx: CreditTx, email: Option<string>, iso: int -> string): (r: seq<string>)
    ensures |r| == |CSV_COLUMNS|
    ensures r[0] == NatToString(tx.id) && r[4] == QuoteField(tx.description) && r[6] == iso(tx.createdAt)
  {
    [NatToString(tx.id),
     if Truthy(email) then email.value else NatToString(tx.userId),
     tx.txType.Name(),
     IntToString(tx.amount),
     QuoteField(tx.description),
     if Truthy(tx.referenceId) then tx.referenceId.value else "",
     iso(tx.createdAt)]
  }

  /** One CSV line: id, the user's email or else the user id, type, amount, the quoted
      description, the reference or empty, and the ISO timestamp (given as `iso`). */
  function CsvRow(tx: CreditTx, email: Option<string>, iso: int -> string): (r: string)
    ensures StartsWith(r, NatToString(tx.id) + ",")
  {
    var fields := CsvFields(tx, email, iso);
    assert fields[1..][0] == fields[1];
    Join(fields, ",")
  }

  /** A line break can only enter a CSV line through the email, the description, the
      reference or the timestamp. */
  lemma CsvRowOneLine(tx: CreditTx, email: Option<string>, iso: int -> string)
    requires email.Some? ==> '\n' !in email.value
    requires '\n' !in tx.description
    requires tx.referenceId.Some? ==> '\n' !in tx.referenceId.value
    requires '\n' !in iso(tx.createdAt)
    ensures '\n' !in CsvRow(tx, email, iso)
  {
    var fields := CsvFields(tx, email, iso);
    DigitsHaveNoBreak(tx.id);
    DigitsHaveNoBreak(tx.userId);
    DigitsHaveNoBreak(if tx.amount < 0 then -tx.amount else tx.amount);
    assert '\n' !in fields[2] by {
      match tx.txType
      case SubscriptionRenew =>
      case Usage =>
      case Expired =>
      case Bonus =>
      case Refund =>
      case AdminGrant =>
    }
    assert '\n' !in fields[3];
    JoinWithout(fields, ",", '\n');
  }

  function CsvRows(txs: seq<CreditTx>, emailOf: Id -> Option<string>, iso: int -> string): (r: seq<string>)
    ensures |r| == |txs|
    ensures forall k :: 0 <= k < |txs| ==> r[k] == CsvRow(txs[k], emailOf(txs[k].userId), iso)
  {
    seq(|txs|, k requires 0 <= k < |txs| => CsvRow(txs[k], emailOf(txs[k].userId), iso))
  }

  /** `generateTransactionCSV`: the header line, then the rows joined by newlines. */
  function TransactionCsv(txs: seq<CreditTx>, emailOf: Id -> Option<string>, iso: int -> string): (r: string)
    ensures StartsWith(r, CSV_HEADER_LINE + "\n")
    ensures txs == [] ==> r == CSV_HEADER_LINE + "\n"
  {
    CSV_HEADER_LINE + "\n" + Join(CsvRows(txs, emailOf, iso), "\n")
  }

  lemma HeaderIsOneLine()
    ensures '\n' !in CSV_HEADER_LINE
  {
    forall k | 0 <= k < |CSV_COLUMNS|
      ensures '\n' !in CSV_COLUMNS[k]
    {
    }
    JoinWithout(CSV_COLUMNS, ",", '\n');
  }

  /** When no row contains a line break, the lines of the export are the header and then
      one row per transaction in input order; with no transactions the header is followed
      by one empty line. */
  lemma CsvLines(txs: seq<CreditTx>, emailOf: Id -> Option<string>, iso: int -> string)
    requires forall k :: 0 <= k < |txs| ==> '\n' !in CsvRow(txs[k], emailOf(txs[k].userId), iso)
    ensures txs != [] ==>
      Split(TransactionCsv(txs, emailOf, iso), '\n') == [CSV_HEADER_LINE] + CsvRows(txs, emailOf, iso)
    ensures txs == [] ==> Split(TransactionCsv(txs, emailOf, iso), '\n') == [CSV_HEADER_LINE, ""]
  {
    var rows := CsvRows(txs, emailOf, iso);
    HeaderIsOneLine();
    SplitAtFirstSeparator(CSV_HEADER_LINE, '\n', Join(rows, "\n"));
    if txs != [] {
      SplitOfJoin(rows, '\n');
    } else {
      SplitWithoutSeparator("", '\n');
    }
  }

  // ----- Old-file cleanup -----

  /** `outputUrl.split('/').pop()`. */
  function OutputKey(outputUrl: string): string {
    AfterLast(outputUrl, '/')
  }

  predicate IsStale(h: HistoryRow, cutoff: int) {
    h.createdAt < cutoff && !h.isPermanent
  }

  /** The rows `cleanupOldFiles` visits: not permanent and created before the cutoff. */
  function CleanupCandidates(history: seq<HistoryRow>, cutoff: int): (r: seq<HistoryRow>)
    ensures forall h :: h in r <==> h in history && IsStale(h, cutoff)
  {
    Filter(history, (h: HistoryRow) => IsStale(h, cutoff))
  }

  datatype CleanupEntry = Deleted(id: Id) | CleanupError(id: Id, error: string)

  /** What the sweep has touched so far. */
  datatype Sweep = Sweep(history: seq<HistoryRow>, objects: map<string, StoredObject>, results: seq<CleanupEntry>)

  predicate HasRow(history: seq<HistoryRow>, id: Id) {
    exists j :: 0 <= j < |history| && history[j].id == id
  }

  /** `history.delete({ where: { id } })`. */
  function RowsWithout(history: seq<HistoryRow>, id: Id): (r: seq<HistoryRow>)
    ensures forall x :: x in r <==> x in history && x.id != id
  {
    Filter(history, (x: HistoryRow) => x.id != id)
  }

  /** The entry one pass records for a candidate whose key is not empty. */
  function StepEntry(w: Sweep, h: HistoryRow, key: string, failure: string -> Option<string>, missingRow: string): CleanupEntry {
    if failure(key).Some? then CleanupError(h.id, failure(key).value)
    else if !HasRow(w.history, h.id) then CleanupError(h.id, missingRow)
    else Deleted(h.id)
  }

  /** One pass of the loop. A candidate whose key is empty is skipped. Otherwise the object
      is deleted (`failure(key)` gives the store's error when that fails) and then the row;
      deleting a row that is no longer there is the store's error `missingRow`. Any error
      becomes an `error` entry and the loop goes on. */
  function SweepStep(w: Sweep, h: HistoryRow, failure: string -> Option<string>, missingRow: string): (r: Sweep)
    ensures var key := OutputKey(h.outputUrl);
      && (key == "" ==> r == w)
      && (key != "" && failure(key).Some? ==>
            r.history == w.history && r.objects == w.objects && r.results == w.results + [CleanupError(h.id, failure(key).value)])
      && (key != "" && failure(key).None? ==> key !in r.objects && !HasRow(r.history, h.id))
  {
    var key := OutputKey(h.outputUrl);
    if key == "" then w
    else
      var e := StepEntry(w, h, key, failure, missingRow);
      if failure(key).Some? then w.(results := w.results + [e])
      else if !HasRow(w.history, h.id) then w.(objects := w.objects - {key}, results := w.results + [e])
      else Sweep(RowsWithout(w.history, h.id), w.objects - {key}, w.results + [e])
  }

  function SweepAll(w: Sweep, cands: seq<HistoryRow>, failure: string -> Option<string>, missingRow: string): (r: Sweep)
    ensures w.results <= r.results
    ensures forall k :: k in r.objects ==> k in w.objects
    ensures |r.history| <= |w.history|
  {
    if cands == [] then w
    else SweepStep(SweepAll(w, cands[..|cands| - 1], failure, missingRow), cands[|cands| - 1], failure, missingRow)
  }

  /** The candidates the loop acts on: those whose key is not empty. */
  function Attempts(cands: seq<HistoryRow>): (r: seq<HistoryRow>)
    ensures forall c :: c in r <==> c in cands && OutputKey(c.outputUrl) != ""
  {
    Filter(cands, (c: HistoryRow) => OutputKey(c.outputUrl) != "")
  }

  /** One pass adds at most one entry, naming the candidate, and only when its key is not
      empty. */
  lemma SweepStepResults(w: Sweep, h: HistoryRow, failure: string -> Option<string>, missingRow: string)
    ensures var r := SweepStep(w, h, failure, missingRow);
      && |r.results| == |w.results| + (if OutputKey(h.outputUrl) != "" then 1 else 0)
      && (forall k :: 0 <= k < |w.results| ==> r.results[k] == w.results[k])
      && (forall k :: |w.results| <= k < |r.results| ==> r.results[k].id == h.id)
  {
    var key := OutputKey(h.outputUrl);
    var r := SweepStep(w, h, failure, missingRow);
    if key != "" {
      assert r.results == w.results + [StepEntry(w, h, key, failure, missingRow)];
    }
  }

  /** One pass only removes rows, and only rows with the candidate's id. */
  lemma SweepStepRows(w: Sweep, h: HistoryRow, failure: string -> Option<string>, missingRow: string)
    ensures var r := SweepStep(w, h, failure, missingRow);
      && (forall x :: x in r.history ==> x in w.history)
      && (forall x :: x in w.history && x.id != h.id ==> x in r.history)
  {
  }

  /** One pass deletes no object but the candidate's key. */
  lemma SweepStepObjects(w: Sweep, h: HistoryRow, failure: string -> Option<string>, missingRow: string)
    ensures var r := SweepStep(w, h, failure, missingRow);
      forall k :: k in w.objects && k != OutputKey(h.outputUrl) ==> k in r.objects && r.objects[k] == w.objects[k]
  {
  }

  /** A failure does not stop the sweep: each candidate with a key gets exactly one entry,
      naming it, in candidate order, after the entries already there. */
  lemma {:induction false} SweepReportsEveryAttempt(w: Sweep, cands: seq<HistoryRow>, failure: string -> Option<string>, missingRow: string)
    ensures var r := SweepAll(w, cands, failure, missingRow);
      && |r.results| == |w.results| + |Attempts(cands)|
      && (forall k :: 0 <= k < |w.results| ==> r.results[k] == w.results[k])
      && forall k :: 0 <= k < |Attempts(cands)| ==> r.results[|w.results| + k].id == Attempts(cands)[k].id
  {
    if cands != [] {
      var p := cands[..|cands| - 1];
      SweepReportsEveryAttempt(w, p, failure, missingRow);
      SweepStepResults(SweepAll(w, p, failure, missingRow), cands[|cands| - 1], failure, missingRow);
    }
  }

  /** The sweep only removes rows, and keeps every row whose id no candidate has. */
  lemma {:induction false} SweepKeepsOtherRows(w: Sweep, cands: seq<HistoryRow>, failure: string -> Option<string>, missingRow: string)
    ensures var r := SweepAll(w, cands, failure, missingRow);
      && (forall h :: h in r.history ==> h in w.history)
      && (forall h :: h in w.history && (forall c :: c in cands ==> c.id != h.id) ==> h in r.history)
  {
    if cands != [] {
      var p := cands[..|cands| - 1];
      SweepKeepsOtherRows(w, p, failure, missingRow);
      SweepStepRows(SweepAll(w, p, failure, missingRow), cands[|cands| - 1], failure, missingRow);
    }
  }

  /** The sweep deletes no object other than a candidate's key. */
  lemma {:induction false} SweepKeepsOtherObjects(w: Sweep, cands: seq<HistoryRow>, failure: string -> Option<string>, missingRow: string, k: string)
    requires k in w.objects
    requires forall c :: c in cands ==> OutputKey(c.outputUrl) != k
    ensures var r := SweepAll(w, cands, failure, missingRow);
      k in r.objects && r.objects[k] == w.objects[k]
  {
    if cands != [] {
      var p := cands[..|cands| - 1];
      SweepKeepsOtherObjects(w, p, failure, missingRow, k);
      SweepStepObjects(SweepAll(w, p, failure, missingRow), cands[|cands| - 1], failure, missingRow);
    }
  }

  predicate UniqueHistoryIds(history: seq<HistoryRow>) {
    forall i, j :: 0 <= i < j < |history| ==> history[i].id != history[j].id
  }

  /** With one row per id, `cleanupOldFiles` never deletes a permanent row or one created
      at or after the cutoff. */
  lemma CleanupKeepsProtectedRows(history: seq<HistoryRow>, objects: map<string, StoredObject>, cutoff: int,
                                  failure: string -> Option<string>, missingRow: string, h: HistoryRow)
    requires UniqueHistoryIds(history)
    requires h in history && !IsStale(h, cutoff)
    ensures h in SweepAll(Sweep(history, objects, []), CleanupCandidates(history, cutoff), failure, missingRow).history
  {
    var cands := CleanupCandidates(history, cutoff);
    forall c | c in cands
      ensures c.id != h.id
    {
      var i :| 0 <= i < |history| && history[i] == h;
      var j :| 0 <= j < |history| && history[j] == c;
      assert i != j;
    }
    SweepKeepsOtherRows(Sweep(history, objects, []), cands, failure, missingRow);
  }

  // ----- Maintenance switch -----

  const MAINTENANCE_KEY := "maintenance_mode"

  /** `getMaintenanceMode`: the stored value is exactly `"true"`; no entry means off. */
  function MaintenanceMode(s: State): (on: bool)
    ensures MAINTENANCE_KEY !in s.config ==> !on
    ensures on ==> s.config[MAINTENANCE_KEY] == "true"
  {
    MAINTENANCE_KEY in s.config && s.config[MAINTENANCE_KEY] == "true"
  }

  /** `setMaintenanceMode`: the upsert of the one entry. */
  function WithMaintenance(s: State, active: bool): (s': State)
    ensures s'.config.Keys == s.config.Keys + {MAINTENANCE_KEY}
    ensures forall k :: k in s.config && k != MAINTENANCE_KEY ==> s'.config[k] == s.config[k]
    ensures s' == s.(config := s'.config)
  {
    s.(config := s.config[MAINTENANCE_KEY := if active then "true" else "false"])
  }

  /** Reading the switch gives back what was last written; a second write replaces the first. */
  lemma MaintenanceRoundTrip(s: State, a: bool, b: bool)
    ensures MaintenanceMode(WithMaintenance(s, b)) == b
    ensures WithMaintenance(WithMaintenance(s, a), b) == WithMaintenance(s, b)
  {
  }

  /** `AdminService` over the store and the object bucket. */
  class AdminService {
    const db: Database
    const store: ObjectStore

    constructor (db: Database, store: ObjectStore)
      ensures this.db == db && this.store == store
    {
      this.db := db;
      this.store := store;
    }

    /** One grant: raise the user's balance and append its ledger row, or fail with nothing
        changed when the user does not exist. */
    method GrantOne(userId: Id, amount: int, t: TxType, description: string, now: int)
      returns (r: Result<(), LedgerError>)
      modifies db
      ensures match Grant(old(db.Snapshot()), userId, amount, t, description, now)
              case Success(s') => r.Success? && db.Snapshot() == s'
              case Failure(e) => r == Failure(e) && db.Snapshot() == old(db.Snapshot())
    {
      ghost var before := db.Snapshot();
      var idx := UserIndex(db.users, userId);
      if idx.None? {
        return Failure(UserNotFound);
      }
      GrantWrites(before, userId, amount, t, description, now);
      var user := db.users[idx.value];
      db.users := db.users[idx.value := user.(credits := user.credits + amount)];
      var id := db.FreshId();
      var tx := CreditTx(id, userId, amount, t, description, None, now);
      db.transactions := db.transactions + [tx];
      assert db.Snapshot() == Post(before, idx.value, user.credits + amount, tx);
      r := Success(());
    }

    /** `bulkGrantCredits`: the grants run in one transaction; when one fails the store is
        rolled back to where it started and the call throws. */
    method BulkGrantCredits(userIds: seq<Id>, amount: int, description: string, now: int)
      returns (r: Result<(), LedgerError>)
      modifies db
      ensures match BulkGrant(old(db.Snapshot()), userIds, amount, description, now)
              case Success(s') => r.Success? && db.Snapshot() == s'
              case Failure(e) => r == Failure(e) && db.Snapshot() == old(db.Snapshot())
    {
      var saved := db.Snapshot();
      var i := 0;
      while i < |userIds|
        invariant 0 <= i <= |userIds|
        invariant BulkGrant(saved, userIds[..i], amount, description, now).Success?
        invariant db.Snapshot() == BulkGrant(saved, userIds[..i], amount, description, now).value
      {
        BulkGrantExtend(saved, userIds, i, amount, description, now);
        var step := GrantOne(userIds[i], amount, Bonus, description, now);
        if step.Failure? {
          BulkGrantPrefixFails(saved, userIds, i + 1, amount, description, now);
          db.Restore(saved);
          return Failure(UserNotFound);
        }
        i := i + 1;
      }
      assert userIds[..i] == userIds;
      r := Success(());
    }

    /** `getRevenueStats` from `startDate` on: one entry per day with a paid payment, in the
        order the days first occur among the payments sorted by `paidAt`, each the day's
        total, together the total of the paid payments in range. */
    method RevenueStats(startDate: int, dayOf: int -> string) returns (series: seq<(string, int)>)
      ensures |series| == |FirstKeys(RevenueRows(db.payments, startDate), RevenueKey(dayOf))|
      ensures forall j :: 0 <= j < |series| ==> series[j].0 == FirstKeys(RevenueRows(db.payments, startDate), RevenueKey(dayOf))[j]
      ensures forall i, j :: 0 <= i < j < |series| ==> series[i].0 != series[j].0
      ensures EntryKeys(series) == KeysOf(RevenueRows(db.payments, startDate), RevenueKey(dayOf))
      ensures forall j :: 0 <= j < |series| ==>
        series[j].1 == KeyTotal(RevenueRows(db.payments, startDate), RevenueKey(dayOf), PaymentAmount, series[j].0)
      ensures EntriesTotal(series) == PaidTotal(RevenueRows(db.payments, startDate))
    {
      var payments := RevenueRows(db.payments, startDate);
      series := GroupSum(payments, RevenueKey(dayOf), PaymentAmount);
      RevenueTotalIsPaidTotal(payments, dayOf);
    }

    /** `getUserGrowthStats` from `startDate` on: one entry per signup day, in the order the
        days first occur among the users sorted by `createdAt`, each that day's signups,
        together the number of users created in range. */
    method UserGrowthStats(startDate: int, dayOf: int -> string) returns (series: seq<(string, int)>)
      ensures |series| == |FirstKeys(SignupRows(db.users, startDate), SignupKey(dayOf))|
      ensures forall j :: 0 <= j < |series| ==> series[j].0 == FirstKeys(SignupRows(db.users, startDate), SignupKey(dayOf))[j]
      ensures forall i, j :: 0 <= i < j < |series| ==> series[i].0 != series[j].0
      ensures EntryKeys(series) == KeysOf(SignupRows(db.users, startDate), SignupKey(dayOf))
      ensures forall j :: 0 <= j < |series| ==>
        series[j].1 == KeyTotal(SignupRows(db.users, startDate), SignupKey(dayOf), One, series[j].0)
      ensures EntriesTotal(series) == |SignupRows(db.users, startDate)|
    {
      var users := SignupRows(db.users, startDate);
      series := GroupSum(users, SignupKey(dayOf), One);
      SignupTotalIsCount(users, dayOf);
    }

    /** `getCreditTransactions`, with the `where` object built step by step. */
    method GetCreditTransactions(q: TxQuery) returns (r: Result<(seq<CreditTx>, nat), QueryError>)
      ensures r == CreditTransactions(db.Snapshot(), q)
    {
      var w := BuildWhere(q);
      var offset := if q.offset.Some? then q.offset.value else 0;
      if offset < 0 {
        return Failure(NegativeSkip);
      }
      var rows := Filter(db.transactions, (tx: CreditTx) => Satisfies(w, tx));
      FilterSamePredicate(db.transactions, (tx: CreditTx) => Satisfies(w, tx), (tx: CreditTx) => Selected(q, tx));
      r := Success((Page(NewestFirst(rows), offset, Take(q)), |rows|));
    }

    /** `cleanupOldFiles` with the cutoff date given. */
    method CleanupOldFiles(cutoff: int, failure: string -> Option<string>, missingRow: string)
      returns (results: seq<CleanupEntry>)
      modifies db, store
      ensures var w := SweepAll(Sweep(old(db.history), old(store.objects), []),
                                CleanupCandidates(old(db.history), cutoff), failure, missingRow);
        db.history == w.history && store.objects == w.objects && results == w.results
      ensures db.Snapshot() == old(db.Snapshot()).(history := db.history)
    {
      var cands := CleanupCandidates(db.history, cutoff);
      ghost var w0 := Sweep(db.history, store.objects, []);
      ghost var s0 := db.Snapshot();
      results := [];
      var i := 0;
      while i < |cands|
        invariant 0 <= i <= |cands|
        invariant Sweep(db.history, store.objects, results) == SweepAll(w0, cands[..i], failure, missingRow)
        invariant db.Snapshot() == s0.(history := db.history)
      {
        assert cands[..i + 1][..i] == cands[..i];
        results := CleanupFile(cands[i], results, failure, missingRow);
        i := i + 1;
      }
      assert cands[..i] == cands;
    }

    /** One pass of the `cleanupOldFiles` loop, inside its `try`. */
    method CleanupFile(file: HistoryRow, results: seq<CleanupEntry>, failure: string -> Option<string>, missingRow: string)
      returns (results': seq<CleanupEntry>)
      modifies db, store
      ensures Sweep(db.history, store.objects, results')
              == SweepStep(Sweep(old(db.history), old(store.objects), results), file, failure, missingRow)
      ensures db.Snapshot() == old(db.Snapshot()).(history := db.history)
    {
      results' := results;
      var key := AfterLast(file.outputUrl, '/');
      if key != "" {
        var ok := store.Delete(key, failure(key).Some?);
        if !ok {
          results' := results + [CleanupError(file.id, failure(key).value)];
        } else if HasRow(db.history, file.id) {
          db.history := RowsWithout(db.history, file.id);
          results' := results + [Deleted(file.id)];
        } else {
          results' := results + [CleanupError(file.id, missingRow)];
        }
      }
    }

    method GetMaintenanceMode() returns (active: bool)
      ensures active == MaintenanceMode(db.Snapshot())
    {
      active := MAINTENANCE_KEY in db.config && db.config[MAINTENANCE_KEY] == "true";
    }

    method SetMaintenanceMode(active: bool)
      modifies db
      ensures db.Snapshot() == WithMaintenance(old(db.Snapshot()), active)
    {
      db.config := db.config[MAINTENANCE_KEY := if active then "true" else "false"];
    }
  }
}
