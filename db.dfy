/** The rows of the relational store the services read and write, the whole store as one
    value (`State`), and the `Database` object whose tables the services update in place.
    Row identifiers are the store's generated ids, modelled as naturals drawn from `nextId`. */
module Db {
  import opened Wrappers
  import opened PricingTypes

  type Id = nat

  datatype User = User(
    id: Id,
    email: string,
    name: Option<string>,
    password: Option<string>,
    role: string,
    credits: int,
    googleId: Option<string>,
    avatarUrl: Option<string>,
    isBanned: bool,
    createdAt: int)

  datatype CreditTx = CreditTx(
    id: Id,
    userId: Id,
    amount: int,
    txType: TxType,
    description: string,
    referenceId: Option<string>,
    createdAt: int)

  datatype Plan = Plan(
    id: Id,
    name: string,
    displayName: string,
    price: int,
    currency: string,
    interval: string,
    credits: int)

  datatype Subscription = Subscription(
    id: Id,
    userId: Id,
    planId: Id,
    status: SubscriptionStatus,
    currentPeriodStart: int,
    currentPeriodEnd: int,
    creditsRemaining: int,
    cancelledAt: Option<int>,
    stripeSubscriptionId: Option<string>,
    createdAt: int)

  datatype Payment = Payment(
    id: Id,
    userId: Id,
    subscriptionId: Id,
    amount: int,
    currency: string,
    status: string,
    paymentType: string,
    orderId: string,
    paidAt: Option<int>)

  datatype HistoryRow = HistoryRow(
    id: Id,
    userId: Id,
    action: Option<string>,
    outputFormat: Option<string>,
    fileName: string,
    outputUrl: string,
    creditsUsed: int,
    expiresAt: Option<int>,
    isPermanent: bool,
    createdAt: int)

  datatype Session = Session(id: string, userId: Id, expiresAt: int)

  datatype Announcement = Announcement(
    id: Id,
    title: string,
    isActive: bool,
    target: string,
    expiresAt: Option<int>,
    createdAt: int)

  /** Every table, in insertion order, and the next id the store hands out. */
  datatype State = State(
    users: seq<User>,
    txs: seq<CreditTx>,
    plans: seq<Plan>,
    subs: seq<Subscription>,
    payments: seq<Payment>,
    history: seq<HistoryRow>,
    sessions: seq<Session>,
    announcements: seq<Announcement>,
    config: map<string, string>,
    nextId: Id)

  /** Milliseconds in a day. */
  const DAY_MS: int := 86400000

  /** Position of the first row whose key is `k` (`findUnique` on a unique column). */
  function IndexOf<T, K(==)>(rows: seq<T>, key: T -> K, k: K): (r: Option<nat>)
    ensures r.Some? ==> r.value < |rows| && key(rows[r.value]) == k
    ensures r.Some? ==> forall j :: 0 <= j < r.value ==> key(rows[j]) != k
    ensures r.None? ==> forall j :: 0 <= j < |rows| ==> key(rows[j]) != k
  {
    if rows == [] then None
    else if key(rows[0]) == k then Some(0)
    else match IndexOf(rows[1..], key, k)
      case None => None
      case Some(j) => Some(j + 1)
  }

  function UserId(u: User): Id { u.id }
  function PlanId(p: Plan): Id { p.id }
  function SessionId(s: Session): string { s.id }

  /** Position of the row with primary key `id` (`findUnique({ where: { id } })`). */
  function UserIndex(users: seq<User>, id: Id): (r: Option<nat>)
    ensures r.Some? ==> r.value < |users| && users[r.value].id == id
    ensures r.Some? ==> forall j :: 0 <= j < r.value ==> users[j].id != id
    ensures r.None? ==> forall j :: 0 <= j < |users| ==> users[j].id != id
  {
    IndexOf(users, UserId, id)
  }

  function PlanIndex(plans: seq<Plan>, id: Id): (r: Option<nat>)
    ensures r.Some? ==> r.value < |plans| && plans[r.value].id == id
    ensures r.None? ==> forall j :: 0 <= j < |plans| ==> plans[j].id != id
  {
    IndexOf(plans, PlanId, id)
  }

  function SessionIndex(sessions: seq<Session>, id: string): (r: Option<nat>)
    ensures r.Some? ==> r.value < |sessions| && sessions[r.value].id == id
    ensures r.None? ==> forall j :: 0 <= j < |sessions| ==> sessions[j].id != id
  {
    IndexOf(sessions, SessionId, id)
  }

  /** Two tables whose rows have the same keys at the same positions locate every key
      alike. */
  lemma {:induction false} SameKeysSameIndex<T, K>(a: seq<T>, b: seq<T>, key: T -> K, k: K)
    requires |a| == |b|
    requires forall j :: 0 <= j < |a| ==> key(a[j]) == key(b[j])
    ensures IndexOf(a, key, k) == IndexOf(b, key, k)
  {
    if a != [] && key(a[0]) != k {
      SameKeysSameIndex(a[1..], b[1..], key, k);
    }
  }

  /** Two user tables with the same ids at the same positions locate every id alike. */
  lemma SameIdsSameIndex(a: seq<User>, b: seq<User>, id: Id)
    requires |a| == |b|
    requires forall j :: 0 <= j < |a| ==> a[j].id == b[j].id
    ensures UserIndex(a, id) == UserIndex(b, id)
  {
    SameKeysSameIndex(a, b, UserId, id);
  }

  /** The outcome of one all-or-nothing operation: on success the store becomes the new
      state and the caller gets the result; on failure the store is left as it was. */
  predicate Applied<R(==), E(==)>(spec: Result<(State, R), E>, r: Result<R, E>, after: State, before: State) {
    match spec
    case Success(v) => r == Success(v.1) && after == v.0
    case Failure(e) => r == Failure(e) && after == before
  }

  predicate HasUser(s: State, id: Id) {
    UserIndex(s.users, id).Some?
  }

  /** The user row with primary key `id`. */
  function UserOf(s: State, id: Id): User
    requires HasUser(s, id)
  {
    s.users[UserIndex(s.users, id).value]
  }

  /** `orderBy: { createdAt: 'desc' }`: rows are appended in time order, so newest first is
      the table read backwards. */
  function NewestFirst<T>(rows: seq<T>): (r: seq<T>)
    ensures |r| == |rows|
    ensures forall i :: 0 <= i < |rows| ==> r[i] == rows[|rows| - 1 - i]
  {
    if rows == [] then [] else [rows[|rows| - 1]] + NewestFirst(rows[..|rows| - 1])
  }

  /** Reversing the order keeps exactly the same rows. */
  lemma NewestFirstKeepsRows<T>(rows: seq<T>)
    ensures forall x :: x in NewestFirst(rows) <==> x in rows
  {
    var r := NewestFirst(rows);
    forall x | x in rows
      ensures x in r
    {
      var j :| 0 <= j < |rows| && rows[j] == x;
      assert r[|rows| - 1 - j] == x;
    }
  }

  /** A `where` filter: the rows satisfying `p`, in table order. */
  function Filter<T(!new)>(rows: seq<T>, p: T -> bool): (r: seq<T>)
    ensures |r| <= |rows|
    ensures forall x :: x in r <==> x in rows && p(x)
  {
    if rows == [] then []
    else
      var rest := Filter(rows[..|rows| - 1], p);
      assert rows == rows[..|rows| - 1] + [rows[|rows| - 1]];
      rest + (if p(rows[|rows| - 1]) then [rows[|rows| - 1]] else [])
  }

  /** The filter keeps table order: filtering a concatenation filters each part in turn. */
  lemma {:induction false} FilterAppend<T(!new)>(a: seq<T>, b: seq<T>, p: T -> bool)
    ensures Filter(a + b, p) == Filter(a, p) + Filter(b, p)
    decreases |b|
  {
    if b == [] {
      assert a + b == a;
    } else {
      var n := |b|;
      var init, x := b[..n - 1], b[n - 1];
      var tail := if p(x) then [x] else [];
      assert (a + b)[..|a + b| - 1] == a + init;
      assert (a + b)[|a + b| - 1] == x;
      calc {
        Filter(a + b, p);
        Filter(a + init, p) + tail;
        { FilterAppend(a, init, p); }
        Filter(a, p) + Filter(init, p) + tail;
        Filter(a, p) + Filter(b, p);
      }
    }
  }

  /** A single row is kept exactly when it satisfies the condition. */
  lemma FilterOne<T(!new)>(x: T, p: T -> bool)
    ensures Filter([x], p) == if p(x) then [x] else []
  {
    assert [x][..0] == [];
  }

  /** Two conditions that agree on every row of the table select the same rows. */
  lemma {:induction false} FilterSamePredicate<T(!new)>(rows: seq<T>, p: T -> bool, q: T -> bool)
    requires forall x :: x in rows ==> p(x) == q(x)
    ensures Filter(rows, p) == Filter(rows, q)
  {
    if rows != [] {
      FilterSamePredicate(rows[..|rows| - 1], p, q);
    }
  }

  /** The complement of a `where` condition. */
  function Not<T>(p: T -> bool): T -> bool {
    x => !p(x)
  }

  /** A filter and its complement split the table: every row goes to exactly one of the
      two. */
  lemma {:induction false} FilterPartition<T(!new)>(rows: seq<T>, p: T -> bool)
    ensures |Filter(rows, p)| + |Filter(rows, Not(p))| == |rows|
  {
    if rows != [] {
      FilterPartition(rows[..|rows| - 1], p);
    }
  }

  /** `skip: offset, take: limit`. */
  function Page<T>(rows: seq<T>, offset: nat, limit: nat): (r: seq<T>)
    ensures |r| == if offset >= |rows| then 0 else if offset + limit <= |rows| then limit else |rows| - offset
    ensures forall i :: 0 <= i < |r| ==> r[i] == rows[offset + i]
  {
    if offset >= |rows| then []
    else if offset + limit <= |rows| then rows[offset..offset + limit]
    else rows[offset..]
  }

  /** `orderBy: { createdAt: 'desc' }, skip: offset, take: limit` over rows kept in
      creation order: the rows newest first, from position `offset` on, at most `limit`. */
  function NewestPage<T>(rows: seq<T>, offset: nat, limit: nat): (r: seq<T>)
    ensures |r| == if offset >= |rows| then 0 else if offset + limit <= |rows| then limit else |rows| - offset
    ensures forall k :: 0 <= k < |r| ==> offset + k < |rows| && r[k] == rows[|rows| - 1 - offset - k]
  {
    Page(NewestFirst(rows), offset, limit)
  }

  class Database {
    var users: seq<User>
    var transactions: seq<CreditTx>
    var plans: seq<Plan>
    var subscriptions: seq<Subscription>
    var payments: seq<Payment>
    var history: seq<HistoryRow>
    var sessions: seq<Session>
    var announcements: seq<Announcement>
    var config: map<string, string>
    var nextId: Id

    function Snapshot(): State
      reads this
    {
      State(users, transactions, plans, subscriptions, payments, history, sessions,
            announcements, config, nextId)
    }

    /** An empty store holding only the plan catalogue. */
    constructor (catalogue: seq<Plan>, firstId: Id)
      ensures Snapshot() == State([], [], catalogue, [], [], [], [], [], map[], firstId)
    {
      users, transactions, plans, subscriptions := [], [], catalogue, [];
      payments, history, sessions, announcements := [], [], [], [];
      config, nextId := map[], firstId;
    }

    /** Sets every table to `s`: the effect of aborting a transaction begun at `s`, or of a
        write the model does not look inside, given as the store it leaves behind. */
    method Restore(s: State)
      modifies this
      ensures Snapshot() == s
    {
      users, transactions, plans, subscriptions := s.users, s.txs, s.plans, s.subs;
      payments, history, sessions, announcements := s.payments, s.history, s.sessions, s.announcements;
      config, nextId := s.config, s.nextId;
    }

    /** Hands out a fresh row id. */
    method FreshId() returns (id: Id)
      modifies this`nextId
      ensures id == old(nextId) && nextId == old(nextId) + 1
    {
      id := nextId;
      nextId := nextId + 1;
    }
  }
}
