/** Tier ordering, the tier a user is on, and feature entitlement. */
module Pricing {
  import opened Wrappers
  import opened PricingTypes
  import opened Db
  import opened Subscriptions

  /** The features `hasFeatureAccess` is asked about. */
  datatype Feature = RemoveBg | Watermark | ApiAccess | BatchProcessing {
    function Name(): string {
      match this
      case RemoveBg => "remove_bg"
      case Watermark => "watermark"
      case ApiAccess => "api_access"
      case BatchProcessing => "batch_processing"
    }
  }

  const PRO_FEATURES: seq<Feature> := [RemoveBg, Watermark]
  const BUSINESS_FEATURES: seq<Feature> := [ApiAccess, BatchProcessing]

  /** `getTierLevel`. */
  function TierLevel(t: Tier): (r: nat)
    ensures r <= 3
  {
    match t
    case Free => 0
    case Starter => 1
    case Pro => 2
    case Business => 3
  }

  /** The levels order the tiers strictly: free < starter < pro < business, and no two
      tiers share a level. */
  lemma TierLevelOrder()
    ensures TierLevel(Free) < TierLevel(Starter) < TierLevel(Pro) < TierLevel(Business)
    ensures forall a: Tier, b: Tier :: TierLevel(a) == TierLevel(b) ==> a == b
  {
    forall a: Tier, b: Tier | TierLevel(a) == TierLevel(b)
      ensures a == b
    {
      match a
      case Free =>
      case Starter =>
      case Pro =>
      case Business =>
    }
  }

  /** `isTierAtLeast`: every tier reaches `free` and itself, and `business` reaches every
      tier. */
  function IsTierAtLeast(userTier: Tier, requiredTier: Tier): (r: bool)
    ensures requiredTier == Free ==> r
    ensures userTier == requiredTier ==> r
    ensures userTier == Business ==> r
    ensures userTier == Free ==> (r <==> requiredTier == Free)
  {
    TierLevel(userTier) >= TierLevel(requiredTier)
  }

  /** `isTierAtLeast` is a total order: reflexive, antisymmetric, transitive and total. */
  lemma TierAtLeastIsTotalOrder()
    ensures forall a: Tier :: IsTierAtLeast(a, a)
    ensures forall a: Tier, b: Tier :: IsTierAtLeast(a, b) && IsTierAtLeast(b, a) ==> a == b
    ensures forall a: Tier, b: Tier, c: Tier :: IsTierAtLeast(a, b) && IsTierAtLeast(b, c) ==> IsTierAtLeast(a, c)
    ensures forall a: Tier, b: Tier :: IsTierAtLeast(a, b) || IsTierAtLeast(b, a)
  {
    TierLevelOrder();
  }

  /** Whether a feature flag is on. */
  function Flag(f: PlanFeatures, feature: Feature): bool {
    match feature
    case RemoveBg => f.removeBg
    case Watermark => f.watermark
    case ApiAccess => f.apiAccess
    case BatchProcessing => f.batchProcessing
  }

  /** Every feature of a tier is also a feature of every higher tier. */
  lemma FeaturesGrowWithTier(a: Tier, b: Tier)
    requires IsTierAtLeast(a, b)
    ensures forall feature :: Flag(TierFeatures(b), feature) ==> Flag(TierFeatures(a), feature)
    ensures TierFeatures(b).compress ==> TierFeatures(a).compress
    ensures TierFeatures(b).convert ==> TierFeatures(a).convert
    ensures TierFeatures(b).resize ==> TierFeatures(a).resize
  {
    match a
    case Free =>
    case Starter =>
    case Pro =>
    case Business =>
  }

  /** `hasFeatureAccess` once the tier name is known: everything on `business`, the
      `PRO_FEATURES` on `pro`, nothing on any other tier name. */
  function FeatureAccess(tier: string, feature: Feature): (r: bool)
    ensures tier == "business" ==> r
    ensures tier == "pro" ==> (r <==> feature == RemoveBg || feature == Watermark)
    ensures tier != "business" && tier != "pro" ==> !r
  {
    if tier == "business" then true
    else if tier == "pro" then feature in PRO_FEATURES
    else false
  }

  /** `hasFeatureAccess` and the `TIER_FEATURES` table agree on every tier and feature. */
  lemma FeatureAccessMatchesTable(t: Tier, feature: Feature)
    ensures FeatureAccess(t.Name(), feature) == Flag(TierFeatures(t), feature)
  {
  }

  /** `getUserTier`: `free` without a current subscription, otherwise the name of its plan
      as stored (a subscription's plan is always in the store; a dangling plan id is read
      as `free`). */
  function UserTier(s: State, userId: Id, now: int): (r: string)
    ensures ActiveSubscription(s.subs, userId, now).None? ==> r == "free"
    ensures ActiveSubscription(s.subs, userId, now).Some? ==>
      var sub := s.subs[ActiveSubscription(s.subs, userId, now).value];
      PlanIndex(s.plans, sub.planId).Some? ==> r == s.plans[PlanIndex(s.plans, sub.planId).value].name
  {
    match ActiveSubscription(s.subs, userId, now)
    case None => "free"
    case Some(i) =>
      match PlanIndex(s.plans, s.subs[i].planId)
      case None => "free"
      case Some(k) => s.plans[k].name
  }

  /** `hasFeatureAccess`: only a `pro` or `business` plan gives any feature. */
  function HasFeatureAccess(s: State, userId: Id, feature: Feature, now: int): (r: bool)
    ensures r ==> UserTier(s, userId, now) == "pro" || UserTier(s, userId, now) == "business"
    ensures UserTier(s, userId, now) == "business" ==> r
  {
    FeatureAccess(UserTier(s, userId, now), feature)
  }

  /** `hasActiveSubscription`: the tier is not `free`, which needs a current
      subscription. */
  function HasActiveSubscription(s: State, userId: Id, now: int): (r: bool)
    ensures r ==> ActiveSubscription(s.subs, userId, now).Some?
  {
    UserTier(s, userId, now) != "free"
  }

  /** A user without a current subscription has no paid feature, and a current
      subscription to the plan named `free` does not count as active. */
  lemma NoSubscriptionNoFeatures(s: State, userId: Id, feature: Feature, now: int)
    requires ActiveSubscription(s.subs, userId, now).None?
    ensures !HasFeatureAccess(s, userId, feature, now) && !HasActiveSubscription(s, userId, now)
  {
  }

  /** `hasActiveSubscription` holds exactly when there is a current subscription whose
      plan is not named `free`. */
  lemma HasActiveSubscriptionIff(s: State, userId: Id, now: int)
    ensures HasActiveSubscription(s, userId, now) <==>
      ActiveSubscription(s.subs, userId, now).Some?
      && PlanIndex(s.plans, s.subs[ActiveSubscription(s.subs, userId, now).value].planId).Some?
      && s.plans[PlanIndex(s.plans, s.subs[ActiveSubscription(s.subs, userId, now).value].planId).value].name != "free"
  {
  }

  /** The values a `features` column can hold. */
  datatype JsValue =
    | JsUndefined
    | JsNull
    | JsBool(b: bool)
    | JsNumber(n: int)
    | JsString(s: string)
    | JsArray(items: seq<JsValue>)
    | JsObject(fields: seq<(string, JsValue)>)

  /** JavaScript falsiness (`NaN` has no counterpart here). */
  predicate IsFalsy(v: JsValue) {
    v.JsUndefined? || v.JsNull? || v == JsBool(false) || v == JsNumber(0) || v == JsString("")
  }

  /** `parseFeatures`. `JSON.parse` is opaque: `jsonParse` gives its result, or `None` when
      it throws. */
  function ParseFeatures(features: JsValue, jsonParse: string -> Option<JsValue>): (r: JsValue)
    ensures IsFalsy(features) ==> r == JsArray([])
    ensures features.JsArray? ==> r == features
    ensures !features.JsString? && !features.JsArray? ==> r == JsArray([])
    ensures features.JsString? && features.s != "" ==> r == jsonParse(features.s).GetOr(JsArray([]))
  {
    if IsFalsy(features) then JsArray([])
    else if features.JsString? then jsonParse(features.s).GetOr(JsArray([]))
    else if features.JsArray? then features
    else JsArray([])
  }
}
