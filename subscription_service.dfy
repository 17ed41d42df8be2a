/** The subscription lifecycle: looking up the current subscription, activation after a
    payment, cancellation, the periodic expiry sweep and the days left in a period. */
module Subscriptions {
  import opened Wrappers
  import opened Text
  import opened PricingTypes
  import opened Db
  import opened Credits

  /** `new Date('2099-12-31')`: midnight UTC of 31 December 2099, in ms since the epoch. */
  const FAR_FUTURE_MS: int := 4102358400000

  datatype SubscriptionError = PlanMissing | UserMissing | NoActiveSubscription

  /** A row `getActiveSubscription` accepts: the user's, `active`, not yet ended. */
  predicate IsCurrent(sub: Subscription, userId: Id, now: int) {
    sub.userId == userId && sub.status == Active && sub.currentPeriodEnd >= now
  }

  /** `getActiveSubscription`: the newest current row, that is the last in table order. */
  function ActiveSubscription(subs: seq<Subscription>, userId: Id, now: int): (r: Option<nat>)
    ensures r.Some? ==> r.value < |subs| && IsCurrent(subs[r.value], userId, now)
    ensures r.Some? ==> forall j :: r.value < j < |subs| ==> !IsCurrent(subs[j], userId, now)
    ensures r.None? ==> forall j :: 0 <= j < |subs| ==> !IsCurrent(subs[j], userId, now)
  {
    if subs == [] then None
    else if IsCurrent(subs[|subs| - 1], userId, now) then Some(|subs| - 1)
    else ActiveSubscription(subs[..|subs| - 1], userId, now)
  }

  /** The end of a new period. One calendar month or year after `now` is calendar
      arithmetic (`setMonth`, `setFullYear`) and comes in as `monthLater` and `yearLater`. */
  function PeriodEnd(interval: string, monthLater: int, yearLater: int): (r: int)
    ensures interval == "month" ==> r == monthLater
    ensures interval == "year" ==> r == yearLater
    ensures interval != "month" && interval != "year" ==> r == FAR_FUTURE_MS
  {
    if interval == "month" then monthLater
    else if interval == "year" then yearLater
    else FAR_FUTURE_MS
  }

  function DemoteRow(sub: Subscription, userId: Id, now: int): Subscription {
    if sub.userId == userId && sub.status == Active
    then sub.(status := Cancelled, cancelledAt := Some(now))
    else sub
  }

  /** The `updateMany` that cancels every active subscription of the user. */
  function Demote(subs: seq<Subscription>, userId: Id, now: int): (r: seq<Subscription>)
    ensures |r| == |subs|
    ensures forall k :: 0 <= k < |subs| ==> r[k] == DemoteRow(subs[k], userId, now)
    ensures forall k :: 0 <= k < |r| ==> !(r[k].userId == userId && r[k].status == Active)
  {
    seq(|subs|, k requires 0 <= k < |subs| => DemoteRow(subs[k], userId, now))
  }

  /** Once demoted, the user has no current subscription: a lookup that saw the demotion
      would never find a prior subscription to expire. */
  lemma LookupAfterDemotionFindsNothing(subs: seq<Subscription>, userId: Id, now: int, at: int)
    ensures ActiveSubscription(Demote(subs, userId, now), userId, at).None?
  {
  }

  /** `existingSub.plan.price > 0`. A row's plan always exists in the store; a dangling
      plan id is read as unpaid. */
  predicate IsPaid(s: State, sub: Subscription) {
    match PlanIndex(s.plans, sub.planId)
    case None => false
    case Some(k) => s.plans[k].price > 0
  }

  /** `paymentId || 'SUB-' + subscription.id`. */
  function OrderId(paymentId: Option<string>, subscriptionId: Id): (r: string)
    ensures Truthy(paymentId) ==> r == paymentId.value
    ensures !Truthy(paymentId) ==> r == "SUB-" + NatToString(subscriptionId)
  {
    if Truthy(paymentId) then paymentId.value else "SUB-" + NatToString(subscriptionId)
  }

  predicate SameUserIds(a: State, b: State) {
    |a.users| == |b.users| && forall j :: 0 <= j < |a.users| ==> a.users[j].id == b.users[j].id
  }

  lemma LedgerStepKeepsUserIds(s: State, s': State, u: Id)
    requires LedgerStep(s, s', u)
    ensures SameUserIds(s, s')
  {
    var i := UserIndex(s.users, u).value;
    forall j | 0 <= j < |s.users|
      ensures s.users[j].id == s'.users[j].id
    {
      if j == i {
        assert s'.users[i] == s.users[i].(credits := s'.users[i].credits);
      }
    }
  }

  lemma SameUserIdsHasUser(a: State, b: State, u: Id)
    requires SameUserIds(a, b)
    ensures UserIndex(a.users, u) == UserIndex(b.users, u)
  {
    SameIdsSameIndex(a.users, b.users, u);
  }

  lemma SameUserIdsSameUsers(a: State, b: State)
    requires SameUserIds(a, b)
    ensures forall u :: UserIndex(a.users, u) == UserIndex(b.users, u)
  {
    forall u ensures UserIndex(a.users, u) == UserIndex(b.users, u) {
      SameIdsSameIndex(a.users, b.users, u);
    }
  }

  /** The balance left once the prior subscription's credits are dealt with. */
  function Cleared(s: State, userId: Id, now: int): int {
    var prior := ActiveSubscription(s.subs, userId, now);
    var b := Balance(s, userId);
    if prior.Some? && IsPaid(s, s.subs[prior.value]) && b > 0 then 0 else b
  }

  /** The first steps of `activateSubscription`: every active subscription of the user is
      cancelled, and when the prior subscription is paid its remaining credits are expired.
      The prior subscription is looked up in the store as it was before the demotion: the
      lookup runs outside the database transaction that demotes, so it does not see it. */
  function ClearPrior(s: State, userId: Id, paymentId: Option<string>, now: int): (s2: State)
    requires HasUser(s, userId)
    ensures SameUserIds(s, s2)
    ensures s2.subs == Demote(s.subs, userId, now) && s2.payments == s.payments && s2.plans == s.plans
    ensures Balance(s2, userId) == Cleared(s, userId, now)
    ensures Truthy(paymentId) ==>
      FindByReference(s2.txs, paymentId.value, SubscriptionRenew) == FindByReference(s.txs, paymentId.value, SubscriptionRenew)
  {
    var prior := ActiveSubscription(s.subs, userId, now);
    var s1 := s.(subs := Demote(s.subs, userId, now));
    var paid := prior.Some? && IsPaid(s, s.subs[prior.value]);
    var s2 := if paid then Expire(s1, userId, NatToString(s.subs[prior.value].id), now).value.0 else s1;
    assert SameUserIds(s1, s2) && s2.subs == s1.subs && s2.payments == s1.payments && s2.plans == s1.plans by {
      if paid { LedgerStepKeepsUserIds(s1, s2, userId); }
    }
    assert Truthy(paymentId) ==>
      FindByReference(s2.txs, paymentId.value, SubscriptionRenew) == FindByReference(s.txs, paymentId.value, SubscriptionRenew) by {
      if Truthy(paymentId) && paid && Balance(s1, userId) > 0 {
        var x := s2.txs[|s1.txs|];
        assert s2.txs == s.txs + [x] && x.txType == TxType.Expired;
        FindByReferenceAppendOther(s.txs, x, paymentId.value, SubscriptionRenew);
      }
    }
    s2
  }

  /** The steps of `activateSubscription` up to the credit grant: the prior subscription
      cleared, then the new subscription row and its payment row. */
  function ActivateSteps(s: State, userId: Id, plan: Plan, paymentId: Option<string>, now: int,
                         monthLater: int, yearLater: int): (r: (State, Subscription))
    requires HasUser(s, userId)
    ensures HasUser(r.0, userId) && SameUserIds(s, r.0)
    ensures r.1 == Subscription(r.1.id, userId, plan.id, Active, now, PeriodEnd(plan.interval, monthLater, yearLater),
                                plan.credits, None, None, now)
    ensures r.0.subs == Demote(s.subs, userId, now) + [r.1]
    ensures r.0.payments == s.payments + [Payment(r.1.id + 1, userId, r.1.id, plan.price, plan.currency,
                                                  "paid", "stripe", OrderId(paymentId, r.1.id), Some(now))]
    ensures r.0.plans == s.plans
    ensures Balance(r.0, userId) == Cleared(s, userId, now)
    ensures Truthy(paymentId) ==>
      FindByReference(r.0.txs, paymentId.value, SubscriptionRenew) == FindByReference(s.txs, paymentId.value, SubscriptionRenew)
  {
    var s2 := ClearPrior(s, userId, paymentId, now);
    var sub := Subscription(s2.nextId, userId, plan.id, Active, now,
                            PeriodEnd(plan.interval, monthLater, yearLater), plan.credits, None, None, now);
    var s3 := s2.(subs := s2.subs + [sub], nextId := s2.nextId + 1);
    var pay := Payment(s3.nextId, userId, sub.id, plan.price, plan.currency, "paid", "stripe",
                       OrderId(paymentId, sub.id), Some(now));
    var s4 := s3.(payments := s3.payments + [pay], nextId := s3.nextId + 1);
    SameUserIdsHasUser(s, s4, userId);
    (s4, sub)
  }

  /** `activateSubscription`: fails on an unknown plan, and on an unknown user (the
      subscription insert violates its foreign key and the transaction rolls back). */
  function Activate(s: State, userId: Id, planId: Id, paymentId: Option<string>, now: int,
                    monthLater: int, yearLater: int): (r: Result<(State, Subscription), SubscriptionError>)
    ensures r.Failure? <==> PlanIndex(s.plans, planId).None? || !HasUser(s, userId)
    ensures r.Failure? ==> r.error == if PlanIndex(s.plans, planId).None? then PlanMissing else UserMissing
  {
    match PlanIndex(s.plans, planId)
    case None => Failure(PlanMissing)
    case Some(pi) =>
      if !HasUser(s, userId) then Failure(UserMissing)
      else
        var plan := s.plans[pi];
        var (s4, sub) := ActivateSteps(s, userId, plan, paymentId, now, monthLater, yearLater);
        var s5 := Add(s4, userId, plan.credits, SubscriptionRenew,
                      Some(plan.displayName + " subscription activated"), paymentId, now).value.0;
        Success((s5, sub))
  }

  /** What activation does to the subscriptions and payments: a new `active` row that
      ignores any Stripe subscription id, every earlier active row of the user cancelled at
      `now` so that the new row is the user's only active one, and one payment row per call
      whatever the key. */
  lemma ActivateRows(s: State, userId: Id, planId: Id, paymentId: Option<string>,
                     now: int, monthLater: int, yearLater: int)
    requires Activate(s, userId, planId, paymentId, now, monthLater, yearLater).Success?
    ensures var (s', sub) := Activate(s, userId, planId, paymentId, now, monthLater, yearLater).value;
      var plan := s.plans[PlanIndex(s.plans, planId).value];
      && sub == Subscription(sub.id, userId, planId, Active, now, PeriodEnd(plan.interval, monthLater, yearLater),
                             plan.credits, None, None, now)
      && s'.subs == Demote(s.subs, userId, now) + [sub]
      && (forall k :: 0 <= k < |s.subs| && s.subs[k].userId == userId && s.subs[k].status == Active ==>
            s'.subs[k].status == Cancelled && s'.subs[k].cancelledAt == Some(now))
      && (forall k :: 0 <= k < |s'.subs| && s'.subs[k].userId == userId && s'.subs[k].status == Active ==>
            k == |s'.subs| - 1)
      && s'.payments == s.payments + [Payment(sub.id + 1, userId, sub.id, plan.price, plan.currency, "paid", "stripe",
                                              OrderId(paymentId, sub.id), Some(now))]
      && s'.plans == s.plans
  {
  }

  /** What activation does to the balance: the prior paid subscription's credits are
      expired, then the plan's credits are granted unless this payment id was already
      granted. */
  lemma ActivateBalance(s: State, userId: Id, planId: Id, paymentId: Option<string>,
                        now: int, monthLater: int, yearLater: int)
    requires Activate(s, userId, planId, paymentId, now, monthLater, yearLater).Success?
    ensures var s' := Activate(s, userId, planId, paymentId, now, monthLater, yearLater).value.0;
      var plan := s.plans[PlanIndex(s.plans, planId).value];
      Balance(s', userId)
        == Cleared(s, userId, now) + (if IsReplay(s, SubscriptionRenew, paymentId) then 0 else plan.credits)
  {
    var plan := s.plans[PlanIndex(s.plans, planId).value];
    var (s4, sub) := ActivateSteps(s, userId, plan, paymentId, now, monthLater, yearLater);
    assert IsReplay(s4, SubscriptionRenew, paymentId) == IsReplay(s, SubscriptionRenew, paymentId);
  }

  /** `s'` differs from `s` at most in the credits of user row `i`, in the ledger, the
      subscriptions, the payments and the id counter. */
  predicate OnlyCreditsOf(s: State, s': State, i: nat)
    requires i < |s.users|
  {
    && |s'.users| == |s.users|
    && (forall j :: 0 <= j < |s.users| && j != i ==> s'.users[j] == s.users[j])
    && s'.users[i] == s.users[i].(credits := s'.users[i].credits)
    && s'.history == s.history && s'.sessions == s.sessions
    && s'.announcements == s.announcements && s'.config == s.config
  }

  /** The ledger row clearing the prior subscription: one `expired` row of minus the
      balance, referencing that subscription, when it is paid and the balance is positive. */
  function ExpiryRows(s: State, userId: Id, now: int): seq<CreditTx> {
    var prior := ActiveSubscription(s.subs, userId, now);
    var b := Balance(s, userId);
    if prior.Some? && IsPaid(s, s.subs[prior.value]) && b > 0
    then [CreditTx(s.nextId, userId, -b, TxType.Expired, "Expired " + IntToString(b) + " unused credits",
                   Some(NatToString(s.subs[prior.value].id)), now)]
    else []
  }

  /** Clearing the prior subscription changes only the user's credits among users, and
      writes exactly `ExpiryRows` to the ledger. */
  lemma ClearPriorFrame(s: State, userId: Id, paymentId: Option<string>, now: int)
    requires HasUser(s, userId)
    ensures var s2 := ClearPrior(s, userId, paymentId, now);
      && OnlyCreditsOf(s, s2, UserIndex(s.users, userId).value)
      && s2.txs == s.txs + ExpiryRows(s, userId, now)
      && s2.nextId == s.nextId + |ExpiryRows(s, userId, now)|
  {
    var prior := ActiveSubscription(s.subs, userId, now);
    var paid := prior.Some? && IsPaid(s, s.subs[prior.value]);
    var s1 := s.(subs := Demote(s.subs, userId, now));
    var s2 := ClearPrior(s, userId, paymentId, now);
    assert LedgerStep(s1, s2, userId) by {
      if !paid { UnchangedIsLedgerStep(s1, userId); }
    }
  }

  /** What activation leaves alone and what it writes to the ledger. Every other user's
      row, the user's own row apart from its credits, the history, the sessions, the
      announcements and the settings are kept. The ledger gains `ExpiryRows`, then the
      `subscription_renew` grant of the plan's credits under `paymentId` with the id after
      the subscription and payment rows, which a replay leaves out. */
  lemma ActivateFrame(s: State, userId: Id, planId: Id, paymentId: Option<string>,
                      now: int, monthLater: int, yearLater: int)
    requires Activate(s, userId, planId, paymentId, now, monthLater, yearLater).Success?
    ensures var s' := Activate(s, userId, planId, paymentId, now, monthLater, yearLater).value.0;
      var plan := s.plans[PlanIndex(s.plans, planId).value];
      var expiry := ExpiryRows(s, userId, now);
      && OnlyCreditsOf(s, s', UserIndex(s.users, userId).value)
      && s'.txs == s.txs + expiry
         + (if IsReplay(s, SubscriptionRenew, paymentId) then []
            else [CreditTx(s.nextId + |expiry| + 2, userId, plan.credits, SubscriptionRenew,
                           plan.displayName + " subscription activated", paymentId, now)])
  {
    var plan := s.plans[PlanIndex(s.plans, planId).value];
    var s2 := ClearPrior(s, userId, paymentId, now);
    ClearPriorFrame(s, userId, paymentId, now);
    SameUserIdsHasUser(s, s2, userId);
    var (s4, sub) := ActivateSteps(s, userId, plan, paymentId, now, monthLater, yearLater);
    assert s4.users == s2.users && s4.txs == s2.txs && s4.history == s2.history && s4.sessions == s2.sessions
           && s4.announcements == s2.announcements && s4.config == s2.config && s4.nextId == s2.nextId + 2;
    var s5 := Add(s4, userId, plan.credits, SubscriptionRenew,
                  Some(plan.displayName + " subscription activated"), paymentId, now).value.0;
    assert LedgerStep(s4, s5, userId);
  }

  /** Clearing the prior subscription keeps every user's balance equal to the sum of that
      user's ledger rows: the demotion leaves users and ledger alone, and the expiry is a
      ledger step. */
  lemma ClearPriorKeepsBalanced(s: State, userId: Id, paymentId: Option<string>, now: int, v: Id)
    requires HasUser(s, userId)
    requires Balanced(s, v)
    ensures Balanced(ClearPrior(s, userId, paymentId, now), v)
  {
    var prior := ActiveSubscription(s.subs, userId, now);
    var s1 := s.(subs := Demote(s.subs, userId, now));
    assert Balanced(s1, v);
    if prior.Some? && IsPaid(s, s.subs[prior.value]) {
      LedgerStepKeepsBalanced(s1, ClearPrior(s, userId, paymentId, now), userId, v);
    }
  }

  /** Activation keeps every user's balance equal to the sum of that user's ledger rows:
      the new subscription and payment rows leave users and ledger alone, and the expiry of
      the prior credits and the grant are ledger steps. */
  lemma ActivateKeepsBalanced(s: State, userId: Id, planId: Id, paymentId: Option<string>,
                              now: int, monthLater: int, yearLater: int, v: Id)
    requires Activate(s, userId, planId, paymentId, now, monthLater, yearLater).Success?
    requires Balanced(s, v)
    ensures Balanced(Activate(s, userId, planId, paymentId, now, monthLater, yearLater).value.0, v)
  {
    var plan := s.plans[PlanIndex(s.plans, planId).value];
    var s2 := ClearPrior(s, userId, paymentId, now);
    ClearPriorKeepsBalanced(s, userId, paymentId, now, v);
    var (s4, sub) := ActivateSteps(s, userId, plan, paymentId, now, monthLater, yearLater);
    assert s4.users == s2.users && s4.txs == s2.txs;
    var s5 := Add(s4, userId, plan.credits, SubscriptionRenew,
                  Some(plan.displayName + " subscription activated"), paymentId, now).value.0;
    LedgerStepKeepsBalanced(s4, s5, userId, v);
  }

  /** A second activation for the same payment (Stripe reports one first invoice through
      more than one event, and each of them activates) expires the credits the first one
      granted and, the key being spent, grants nothing: the user is left with no credits, and
      with exactly none when the balance before was not negative. */
  lemma {:induction false} RepeatedActivationClearsBalance(s: State, userId: Id, planId: Id, key: string,
                                                           now: int, monthLater: int, yearLater: int,
                                                           now2: int, monthLater2: int, yearLater2: int)
    requires key != ""
    requires Activate(s, userId, planId, Some(key), now, monthLater, yearLater).Success?
    requires s.plans[PlanIndex(s.plans, planId).value].price > 0
    requires PeriodEnd(s.plans[PlanIndex(s.plans, planId).value].interval, monthLater, yearLater) >= now2
    ensures var s1 := Activate(s, userId, planId, Some(key), now, monthLater, yearLater).value.0;
      var r2 := Activate(s1, userId, planId, Some(key), now2, monthLater2, yearLater2);
      && r2.Success?
      && Balance(r2.value.0, userId) <= 0
      && (Balance(s, userId) >= 0 && s.plans[PlanIndex(s.plans, planId).value].credits >= 0
          ==> Balance(r2.value.0, userId) == 0)
  {
    var (s1, sub) := Activate(s, userId, planId, Some(key), now, monthLater, yearLater).value;
    ActivateRows(s, userId, planId, Some(key), now, monthLater, yearLater);
    var plan := s.plans[PlanIndex(s.plans, planId).value];
    // the first call leaves the grant for this key in the ledger
    var (s4, _) := ActivateSteps(s, userId, plan, Some(key), now, monthLater, yearLater);
    var a := Add(s4, userId, plan.credits, SubscriptionRenew,
                 Some(plan.displayName + " subscription activated"), Some(key), now).value;
    if !IsReplay(s4, SubscriptionRenew, Some(key)) {
      FindByReferenceAppend(s4.txs, a.1.transaction, key, SubscriptionRenew);
    }
    assert s1 == a.0;
    assert IsReplay(s1, SubscriptionRenew, Some(key));
    // the first call's row is the user's current one, on a paid plan
    var last := |s1.subs| - 1;
    assert s1.subs[last] == sub && IsCurrent(sub, userId, now2);
    assert ActiveSubscription(s1.subs, userId, now2) == Some(last);
    assert IsPaid(s1, s1.subs[last]);
    assert Cleared(s1, userId, now2) <= 0;
    SameUserIdsHasUser(s4, s1, userId);
    ActivateBalance(s, userId, planId, Some(key), now, monthLater, yearLater);
    ActivateBalance(s1, userId, planId, Some(key), now2, monthLater2, yearLater2);
  }

  /** `findFirst({ where: { id, userId, status: 'active' } })`. */
  predicate Cancellable(sub: Subscription, subscriptionId: Id, userId: Id) {
    sub.id == subscriptionId && sub.userId == userId && sub.status == Active
  }

  function FindCancellable(subs: seq<Subscription>, subscriptionId: Id, userId: Id): (r: Option<nat>)
    ensures r.Some? ==> r.value < |subs| && Cancellable(subs[r.value], subscriptionId, userId)
    ensures r.None? ==> forall k :: 0 <= k < |subs| ==> !Cancellable(subs[k], subscriptionId, userId)
  {
    if subs == [] then None
    else if Cancellable(subs[0], subscriptionId, userId) then Some(0)
    else match FindCancellable(subs[1..], subscriptionId, userId)
      case None => None
      case Some(k) => Some(k + 1)
  }

  /** `cancelSubscription`: only the user's own active row can be cancelled; it becomes
      `cancelled` at `now` and nothing else changes. Anything else fails with no change. */
  function Cancel(s: State, subscriptionId: Id, userId: Id, now: int): (r: Result<(State, Subscription), SubscriptionError>)
    ensures r.Failure? <==> forall k :: 0 <= k < |s.subs| ==> !Cancellable(s.subs[k], subscriptionId, userId)
    ensures r.Failure? ==> r.error == NoActiveSubscription
    ensures r.Success? ==>
      exists k :: 0 <= k < |s.subs| && Cancellable(s.subs[k], subscriptionId, userId)
        && r.value.1 == s.subs[k].(status := Cancelled, cancelledAt := Some(now))
        && r.value.0 == s.(subs := s.subs[k := r.value.1])
  {
    match FindCancellable(s.subs, subscriptionId, userId)
    case None => Failure(NoActiveSubscription)
    case Some(k) =>
      var sub := s.subs[k].(status := Cancelled, cancelledAt := Some(now));
      Success((s.(subs := s.subs[k := sub]), sub))
  }

  /** The sweep's candidates: `active` rows whose period ended before `now`. */
  predicate IsDue(sub: Subscription, now: int) {
    sub.status == Active && sub.currentPeriodEnd < now
  }

  /** Positions of the candidates, in table order. */
  function DueIndices(subs: seq<Subscription>, now: int): (r: seq<nat>)
    ensures forall i :: 0 <= i < |r| ==> r[i] < |subs| && IsDue(subs[r[i]], now)
    ensures forall k :: 0 <= k < |subs| && IsDue(subs[k], now) ==> k in r
    ensures forall i, j :: 0 <= i < j < |r| ==> r[i] < r[j]
  {
    if subs == [] then []
    else
      var rest := DueIndices(subs[..|subs| - 1], now);
      assert forall k :: 0 <= k < |subs| - 1 ==> subs[k] == subs[..|subs| - 1][k];
      rest + (if IsDue(subs[|subs| - 1], now) then [|subs| - 1] else [])
  }

  /** The message pushed for a candidate that could not be processed; the thrown error's
      own text is opaque and comes in as `errorText`. */
  function SweepMessage(subscriptionId: Id, errorText: string): string {
    "Failed to process subscription " + NatToString(subscriptionId) + ": " + errorText
  }

  predicate OutsideSubsUnchanged(s: State, s': State) {
    s'.plans == s.plans && s'.payments == s.payments && s'.history == s.history
    && s'.sessions == s.sessions && s'.announcements == s.announcements && s'.config == s.config
  }

  /** One iteration of the sweep: expire the owner's credits, then mark the row `expired`;
      when expiring throws, the row is left alone and an error is reported. */
  function SweepOne(s: State, k: nat, now: int, errorText: string): (r: (State, Option<string>))
    requires k < |s.subs|
    ensures |r.0.subs| == |s.subs|
  {
    var sub := s.subs[k];
    match Expire(s, sub.userId, NatToString(sub.id), now)
    case Failure(_) => (s, Some(SweepMessage(sub.id, errorText)))
    case Success(v) =>
      var s' := v.0;
      (s'.(subs := s'.subs[k := s'.subs[k].(status := SubscriptionStatus.Expired)]), None)
  }

  /** One step expires the row exactly when its owner exists, and touches no other row. */
  lemma SweepOneEffects(s: State, k: nat, now: int, errorText: string)
    requires k < |s.subs|
    ensures var r := SweepOne(s, k, now, errorText);
      && SameUserIds(s, r.0) && OutsideSubsUnchanged(s, r.0)
      && (forall j :: 0 <= j < |s.subs| && j != k ==> r.0.subs[j] == s.subs[j])
      && r.0.subs[k] == (if HasUser(s, s.subs[k].userId) then s.subs[k].(status := SubscriptionStatus.Expired) else s.subs[k])
      && (r.1.None? <==> HasUser(s, s.subs[k].userId))
  {
    var sub := s.subs[k];
    var e := Expire(s, sub.userId, NatToString(sub.id), now);
    if e.Success? {
      LedgerStepKeepsUserIds(s, e.value.0, sub.userId);
    }
  }

  lemma SweepOneOutcome(s: State, k: nat, now: int, errorText: string)
    requires k < |s.subs|
    ensures var e := Expire(s, s.subs[k].userId, NatToString(s.subs[k].id), now);
      SweepOne(s, k, now, errorText)
        == if e.Failure? then (s, Some(SweepMessage(s.subs[k].id, errorText)))
           else (e.value.0.(subs := e.value.0.subs[k := e.value.0.subs[k].(status := SubscriptionStatus.Expired)]), None)
  {
  }

  /** The candidates from position `i` of `ks` on, processed in order. */
  function SweepFrom(s: State, ks: seq<nat>, i: nat, now: int, errorText: string): (r: (State, seq<string>))
    requires i <= |ks|
    requires forall j :: 0 <= j < |ks| ==> ks[j] < |s.subs|
    ensures |r.0.subs| == |s.subs|
    ensures |r.1| <= |ks| - i
    decreases |ks| - i
  {
    if i == |ks| then (s, [])
    else
      var step := SweepOne(s, ks[i], now, errorText);
      var rest := SweepFrom(step.0, ks, i + 1, now, errorText);
      (rest.0, (if step.1.Some? then [step.1.value] else []) + rest.1)
  }

  datatype SweepResult = SweepResult(processed: int, errors: seq<string>)

  /** `processExpiredSubscriptions`. */
  function Sweep(s: State, now: int, errorText: string): (r: (State, SweepResult))
    ensures r.1.processed == |DueIndices(s.subs, now)|
    ensures |r.1.errors| <= r.1.processed
  {
    var ks := DueIndices(s.subs, now);
    var rest := SweepFrom(s, ks, 0, now, errorText);
    (rest.0, SweepResult(|ks|, rest.1))
  }

  /** The sweep changes no user id and no table besides subscriptions, users and ledger. */
  lemma {:induction false} SweepFromFrame(s: State, ks: seq<nat>, i: nat, now: int, errorText: string)
    requires i <= |ks|
    requires forall j :: 0 <= j < |ks| ==> ks[j] < |s.subs|
    ensures SameUserIds(s, SweepFrom(s, ks, i, now, errorText).0)
    ensures OutsideSubsUnchanged(s, SweepFrom(s, ks, i, now, errorText).0)
    decreases |ks| - i
  {
    if i < |ks| {
      SweepOneEffects(s, ks[i], now, errorText);
      SweepFromFrame(SweepOne(s, ks[i], now, errorText).0, ks, i + 1, now, errorText);
    }
  }

  /** A row no remaining candidate names is left alone. */
  lemma {:induction false} SweepFromUntouched(s: State, ks: seq<nat>, i: nat, now: int, errorText: string, k: nat)
    requires i <= |ks|
    requires forall j :: 0 <= j < |ks| ==> ks[j] < |s.subs|
    requires k < |s.subs| && forall j :: i <= j < |ks| ==> ks[j] != k
    ensures SweepFrom(s, ks, i, now, errorText).0.subs[k] == s.subs[k]
    decreases |ks| - i
  {
    if i < |ks| {
      SweepOneEffects(s, ks[i], now, errorText);
      SweepFromUntouched(SweepOne(s, ks[i], now, errorText).0, ks, i + 1, now, errorText, k);
    }
  }

  /** A remaining candidate ends up `expired` exactly when its owner exists. */
  lemma {:induction false} SweepFromMarks(s: State, ks: seq<nat>, i: nat, now: int, errorText: string, j: nat)
    requires i <= j < |ks|
    requires forall l :: 0 <= l < |ks| ==> ks[l] < |s.subs|
    requires forall l, m :: 0 <= l < m < |ks| ==> ks[l] < ks[m]
    ensures SweepFrom(s, ks, i, now, errorText).0.subs[ks[j]]
            == if HasUser(s, s.subs[ks[j]].userId)
               then s.subs[ks[j]].(status := SubscriptionStatus.Expired) else s.subs[ks[j]]
    decreases |ks| - i
  {
    var s1 := SweepOne(s, ks[i], now, errorText).0;
    SweepOneEffects(s, ks[i], now, errorText);
    if j == i {
      SweepFromUntouched(s1, ks, i + 1, now, errorText, ks[i]);
    } else {
      SweepFromMarks(s1, ks, i + 1, now, errorText, j);
      SameUserIdsSameUsers(s, s1);
      assert s1.subs[ks[j]] == s.subs[ks[j]];
    }
  }

  /** The sweep marks exactly the candidates whose owner exists as `expired` and leaves
      every other row alone. */
  lemma SweepFromRows(s: State, ks: seq<nat>, i: nat, now: int, errorText: string)
    requires i <= |ks|
    requires forall j :: 0 <= j < |ks| ==> ks[j] < |s.subs|
    requires forall j, l :: 0 <= j < l < |ks| ==> ks[j] < ks[l]
    ensures var s' := SweepFrom(s, ks, i, now, errorText).0;
      && (forall k :: 0 <= k < |s.subs| && (forall j :: i <= j < |ks| ==> ks[j] != k) ==> s'.subs[k] == s.subs[k])
      && (forall j :: i <= j < |ks| ==>
            s'.subs[ks[j]] == (if HasUser(s, s.subs[ks[j]].userId)
                               then s.subs[ks[j]].(status := SubscriptionStatus.Expired) else s.subs[ks[j]]))
  {
    var s' := SweepFrom(s, ks, i, now, errorText).0;
    forall k | 0 <= k < |s.subs| && (forall j :: i <= j < |ks| ==> ks[j] != k)
      ensures s'.subs[k] == s.subs[k]
    {
      SweepFromUntouched(s, ks, i, now, errorText, k);
    }
    forall j | i <= j < |ks|
      ensures s'.subs[ks[j]] == (if HasUser(s, s.subs[ks[j]].userId)
                                 then s.subs[ks[j]].(status := SubscriptionStatus.Expired) else s.subs[ks[j]])
    {
      SweepFromMarks(s, ks, i, now, errorText, j);
    }
  }

  /** A failing candidate is reported without stopping the loop: there is an error exactly
      when some candidate's owner is missing. */
  lemma {:induction false} SweepFromErrors(s: State, ks: seq<nat>, i: nat, now: int, errorText: string)
    requires i <= |ks|
    requires forall j :: 0 <= j < |ks| ==> ks[j] < |s.subs|
    requires forall j, l :: 0 <= j < l < |ks| ==> ks[j] < ks[l]
    ensures SweepFrom(s, ks, i, now, errorText).1 == [] <==>
            forall j :: i <= j < |ks| ==> HasUser(s, s.subs[ks[j]].userId)
    decreases |ks| - i
  {
    if i < |ks| {
      var s1 := SweepOne(s, ks[i], now, errorText).0;
      SweepOneEffects(s, ks[i], now, errorText);
      SweepFromErrors(s1, ks, i + 1, now, errorText);
      SweepFromRows(s, ks, i, now, errorText);
      SameUserIdsSameUsers(s, s1);
    }
  }

  /** Every sweep step is a ledger step or no change, so balances stay equal to the sums
      of their ledger rows. */
  lemma {:induction false} SweepFromKeepsBalanced(s: State, ks: seq<nat>, i: nat, now: int, errorText: string, v: Id)
    requires i <= |ks|
    requires forall j :: 0 <= j < |ks| ==> ks[j] < |s.subs|
    requires Balanced(s, v)
    ensures Balanced(SweepFrom(s, ks, i, now, errorText).0, v)
    decreases |ks| - i
  {
    if i < |ks| {
      var sub := s.subs[ks[i]];
      var e := Expire(s, sub.userId, NatToString(sub.id), now);
      if e.Success? {
        LedgerStepKeepsBalanced(s, e.value.0, sub.userId, v);
      }
      SweepFromKeepsBalanced(SweepOne(s, ks[i], now, errorText).0, ks, i + 1, now, errorText, v);
    }
  }

  lemma NoneDueAfter(s: State, ks: seq<nat>, now: int, errorText: string)
    requires forall j :: 0 <= j < |ks| ==> ks[j] < |s.subs| && HasUser(s, s.subs[ks[j]].userId)
    requires forall j, l :: 0 <= j < l < |ks| ==> ks[j] < ks[l]
    requires forall k :: 0 <= k < |s.subs| && IsDue(s.subs[k], now) ==> k in ks
    ensures forall k :: 0 <= k < |s.subs| ==> !IsDue(SweepFrom(s, ks, 0, now, errorText).0.subs[k], now)
  {
    SweepFromRows(s, ks, 0, now, errorText);
    var s' := SweepFrom(s, ks, 0, now, errorText).0;
    forall k | 0 <= k < |s.subs|
      ensures !IsDue(s'.subs[k], now)
    {
      if k in ks {
        var j :| 0 <= j < |ks| && ks[j] == k;
        assert s'.subs[k].status == SubscriptionStatus.Expired;
      } else {
        assert forall j :: 0 <= j < |ks| ==> ks[j] != k;
      }
    }
  }

  /** When every candidate's owner exists, the sweep reports no errors and leaves no
      `active` row whose period has ended. */
  lemma SweepClearsDue(s: State, now: int, errorText: string)
    requires forall k :: 0 <= k < |s.subs| && IsDue(s.subs[k], now) ==> HasUser(s, s.subs[k].userId)
    ensures Sweep(s, now, errorText).1.errors == []
    ensures forall k :: 0 <= k < |Sweep(s, now, errorText).0.subs| ==> !IsDue(Sweep(s, now, errorText).0.subs[k], now)
  {
    var ks := DueIndices(s.subs, now);
    SweepFromErrors(s, ks, 0, now, errorText);
    NoneDueAfter(s, ks, now, errorText);
  }

  /** `getDaysRemaining`: `Math.ceil` of the whole days to the period end, never below 0. */
  function CeilDiv(a: int, b: int): (r: int)
    requires b > 0
    ensures (r - 1) * b < a <= r * b
  {
    -((-a) / b)
  }

  function DaysRemaining(s: State, userId: Id, now: int): (r: int)
    ensures r >= 0
    ensures ActiveSubscription(s.subs, userId, now).None? ==> r == 0
    ensures ActiveSubscription(s.subs, userId, now).Some? ==>
      var diff := s.subs[ActiveSubscription(s.subs, userId, now).value].currentPeriodEnd - now;
      (r - 1) * DAY_MS < diff <= r * DAY_MS
  {
    match ActiveSubscription(s.subs, userId, now)
    case None => 0
    case Some(i) =>
      var days := CeilDiv(s.subs[i].currentPeriodEnd - now, DAY_MS);
      if days < 0 then 0 else days
  }

  /** The `where: { userId }` of the subscription queries. */
  function HeldBy(userId: Id): Subscription -> bool {
    (x: Subscription) => x.userId == userId
  }

  /** The user's subscriptions, in table order. */
  function RowsOf(subs: seq<Subscription>, userId: Id): (r: seq<Subscription>)
    ensures |r| <= |subs|
    ensures forall x :: x in r <==> x in subs && x.userId == userId
  {
    Filter(subs, HeldBy(userId))
  }

  /** The user's subscriptions keep table order: those of a concatenation are each
      part's in turn. */
  lemma RowsOfAppend(a: seq<Subscription>, b: seq<Subscription>, userId: Id)
    ensures RowsOf(a + b, userId) == RowsOf(a, userId) + RowsOf(b, userId)
  {
    FilterAppend(a, b, HeldBy(userId));
  }

  /** `getSubscriptionHistory`: every subscription of the user and no other, newest first:
      entry `k` is the user's `k`-th subscription counted from the end of the table. */
  function History(s: State, userId: Id): (r: seq<Subscription>)
    ensures |r| == |RowsOf(s.subs, userId)|
    ensures forall k :: 0 <= k < |r| ==> r[k] == RowsOf(s.subs, userId)[|r| - 1 - k]
    ensures forall k :: 0 <= k < |r| ==> r[k].userId == userId && r[k] in s.subs
    ensures forall k :: 0 <= k < |s.subs| && s.subs[k].userId == userId ==> s.subs[k] in r
  {
    NewestFirstKeepsRows(RowsOf(s.subs, userId));
    NewestFirst(RowsOf(s.subs, userId))
  }

  /** `SubscriptionService`, writing through the same store as its `CreditService`. */
  class SubscriptionService {
    const db: Database
    const creditSvc: CreditService

    predicate Valid() {
      creditSvc.db == db
    }

    constructor (db: Database, creditSvc: CreditService)
      requires creditSvc.db == db
      ensures this.db == db && this.creditSvc == creditSvc && Valid()
    {
      this.db := db;
      this.creditSvc := creditSvc;
    }

    method ActivateSubscription(userId: Id, planId: Id, paymentId: Option<string>, now: int,
                                monthLater: int, yearLater: int) returns (r: Result<Subscription, SubscriptionError>)
      requires Valid()
      modifies db
      ensures Applied(Activate(old(db.Snapshot()), userId, planId, paymentId, now, monthLater, yearLater), r,
                      db.Snapshot(), old(db.Snapshot()))
    {
      ghost var s0 := db.Snapshot();
      var pi := PlanIndex(db.plans, planId);
      if pi.None? {
        return Failure(PlanMissing);
      }
      var plan := db.plans[pi.value];
      if UserIndex(db.users, userId).None? {
        return Failure(UserMissing);
      }
      var sub := EnterSubscription(userId, plan, paymentId, now, monthLater, yearLater);
      ghost var s4 := db.Snapshot();
      assert (s4, sub) == ActivateSteps(s0, userId, plan, paymentId, now, monthLater, yearLater);
      var _ := creditSvc.AddCredits(userId, plan.credits, SubscriptionRenew,
                                    Some(plan.displayName + " subscription activated"), paymentId, now);
      assert db.Snapshot() == Add(s4, userId, plan.credits, SubscriptionRenew,
                                  Some(plan.displayName + " subscription activated"), paymentId, now).value.0;
      r := Success(sub);
    }

    /** Demotion, expiry of the prior paid subscription's credits, then the new
        subscription and payment rows. */
    method EnterSubscription(userId: Id, plan: Plan, paymentId: Option<string>, now: int,
                             monthLater: int, yearLater: int) returns (sub: Subscription)
      requires Valid() && HasUser(db.Snapshot(), userId)
      modifies db
      ensures (db.Snapshot(), sub) == ActivateSteps(old(db.Snapshot()), userId, plan, paymentId, now, monthLater, yearLater)
    {
      var periodEnd := PeriodEnd(plan.interval, monthLater, yearLater);
      ClearPriorSubscription(userId, paymentId, now);
      var id := db.FreshId();
      sub := Subscription(id, userId, plan.id, Active, now, periodEnd, plan.credits, None, None, now);
      db.subscriptions := db.subscriptions + [sub];
      var paymentRow := db.FreshId();
      db.payments := db.payments + [Payment(paymentRow, userId, id, plan.price, plan.currency, "paid", "stripe",
                                           OrderId(paymentId, id), Some(now))];
    }

    method ClearPriorSubscription(userId: Id, paymentId: Option<string>, now: int)
      requires Valid() && HasUser(db.Snapshot(), userId)
      modifies db
      ensures db.Snapshot() == ClearPrior(old(db.Snapshot()), userId, paymentId, now)
    {
      ghost var s0 := db.Snapshot();
      var prior := ActiveSubscription(db.subscriptions, userId, now);
      var paid := prior.Some? && IsPaid(db.Snapshot(), db.subscriptions[prior.value]);
      var priorId := if prior.Some? then db.subscriptions[prior.value].id else 0;
      db.subscriptions := Demote(db.subscriptions, userId, now);
      ghost var s1 := db.Snapshot();
      assert s1 == s0.(subs := Demote(s0.subs, userId, now));
      if paid {
        var _ := creditSvc.ExpireCredits(userId, NatToString(priorId), now);
        assert db.Snapshot() == Expire(s1, userId, NatToString(s0.subs[prior.value].id), now).value.0;
      }
    }

    method CancelSubscription(subscriptionId: Id, userId: Id, now: int) returns (r: Result<Subscription, SubscriptionError>)
      modifies db
      ensures Applied(Cancel(old(db.Snapshot()), subscriptionId, userId, now), r, db.Snapshot(), old(db.Snapshot()))
    {
      var k := FindCancellable(db.subscriptions, subscriptionId, userId);
      if k.None? {
        return Failure(NoActiveSubscription);
      }
      var sub := db.subscriptions[k.value].(status := Cancelled, cancelledAt := Some(now));
      db.subscriptions := db.subscriptions[k.value := sub];
      r := Success(sub);
    }

    /** One iteration of the sweep's loop, with its `try`/`catch`. */
    method ProcessOne(k: nat, now: int, errorText: string) returns (e: Option<string>)
      requires Valid() && k < |db.subscriptions|
      modifies db
      ensures (db.Snapshot(), e) == SweepOne(old(db.Snapshot()), k, now, errorText)
    {
      ghost var cur := db.Snapshot();
      SweepOneOutcome(cur, k, now, errorText);
      var sub := db.subscriptions[k];
      var res := creditSvc.ExpireCredits(sub.userId, NatToString(sub.id), now);
      if res.Failure? {
        return Some(SweepMessage(sub.id, errorText));
      }
      ghost var mid := db.Snapshot();
      db.subscriptions := db.subscriptions[k := db.subscriptions[k].(status := SubscriptionStatus.Expired)];
      assert db.Snapshot() == mid.(subs := mid.subs[k := mid.subs[k].(status := SubscriptionStatus.Expired)]);
      e := None;
    }

    method ProcessExpiredSubscriptions(now: int, errorText: string) returns (r: SweepResult)
      requires Valid()
      modifies db
      ensures (db.Snapshot(), r) == Sweep(old(db.Snapshot()), now, errorText)
    {
      ghost var s0 := db.Snapshot();
      var due := DueIndices(db.subscriptions, now);
      var errors: seq<string> := [];
      var i := 0;
      while i < |due|
        invariant 0 <= i <= |due|
        invariant |db.subscriptions| == |s0.subs|
        invariant SweepFrom(db.Snapshot(), due, i, now, errorText).0 == SweepFrom(s0, due, 0, now, errorText).0
        invariant errors + SweepFrom(db.Snapshot(), due, i, now, errorText).1 == SweepFrom(s0, due, 0, now, errorText).1
      {
        ghost var errs := errors;
        var e := ProcessOne(due[i], now, errorText);
        ghost var rest := SweepFrom(db.Snapshot(), due, i + 1, now, errorText).1;
        if e.Some? {
          errors := errors + [e.value];
          assert errs + ([e.value] + rest) == errors + rest;
        } else {
          assert [] + rest == rest;
        }
        i := i + 1;
      }
      assert db.Snapshot() == SweepFrom(s0, due, 0, now, errorText).0;
      assert errors == SweepFrom(s0, due, 0, now, errorText).1;
      r := SweepResult(|due|, errors);
    }
  }
}
