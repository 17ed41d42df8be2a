/** The tier, transaction-type and status enumerations and the per-tier feature table
    (src/lib/types/pricing.ts). */
module PricingTypes {
  import opened Wrappers

  datatype Tier = Free | Starter | Pro | Business {
    function Name(): string {
      match this
      case Free => "free"
      case Starter => "starter"
      case Pro => "pro"
      case Business => "business"
    }
  }

  /** The tier whose name is `s`, if any. */
  function TierOfName(s: string): (r: Option<Tier>)
    ensures r.Some? ==> r.value.Name() == s
    ensures r.None? ==> forall t: Tier :: t.Name() != s
  {
    if s == "free" then Some(Free)
    else if s == "starter" then Some(Starter)
    else if s == "pro" then Some(Pro)
    else if s == "business" then Some(Business)
    else None
  }

  /** Credit transaction types. The first five are the declared union; `AdminGrant` is
      the type the admin grant action writes, which the union does not list. */
  datatype TxType = SubscriptionRenew | Usage | Expired | Bonus | Refund | AdminGrant {
    function Name(): string {
      match this
      case SubscriptionRenew => "subscription_renew"
      case Usage => "usage"
      case Expired => "expired"
      case Bonus => "bonus"
      case Refund => "refund"
      case AdminGrant => "admin_grant"
    }
  }

  /** Membership in the declared `CreditTransactionType` union. */
  predicate IsDeclaredTxType(t: TxType) {
    t != AdminGrant
  }

  /** The declared union names exactly five types, with distinct names, and
      `admin_grant` is not among them. */
  lemma DeclaredTxTypeNames()
    ensures (set t: TxType | IsDeclaredTxType(t) :: t.Name())
            == {"subscription_renew", "usage", "expired", "bonus", "refund"}
    ensures forall t: TxType, u: TxType :: t.Name() == u.Name() ==> t == u
    ensures !IsDeclaredTxType(AdminGrant) && AdminGrant.Name() == "admin_grant"
  {
    var names := set t: TxType | IsDeclaredTxType(t) :: t.Name();
    assert SubscriptionRenew.Name() in names && Usage.Name() in names && TxType.Expired.Name() in names;
    assert Bonus.Name() in names && Refund.Name() in names;
  }

  datatype SubscriptionStatus = Active | Cancelled | Expired | PastDue {
    function Name(): string {
      match this
      case Active => "active"
      case Cancelled => "cancelled"
      case Expired => "expired"
      case PastDue => "past_due"
    }
  }

  datatype PlanFeatures = PlanFeatures(
    compress: bool,
    convert: bool,
    resize: bool,
    removeBg: bool,
    watermark: bool,
    apiAccess: bool,
    batchProcessing: bool)

  /** The `TIER_FEATURES` table. */
  function TierFeatures(t: Tier): (f: PlanFeatures)
    ensures f.compress && f.convert && f.resize
    ensures f.removeBg <==> t == Pro || t == Business
    ensures f.watermark <==> t == Pro || t == Business
    ensures f.apiAccess <==> t == Business
    ensures f.batchProcessing <==> t == Business
  {
    match t
    case Free => PlanFeatures(true, true, true, false, false, false, false)
    case Starter => PlanFeatures(true, true, true, false, false, false, false)
    case Pro => PlanFeatures(true, true, true, true, true, false, false)
    case Business => PlanFeatures(true, true, true, true, true, true, true)
  }

  /** The free and starter tiers unlock the same features. */
  lemma FreeAndStarterAgree()
    ensures TierFeatures(Free) == TierFeatures(Starter)
  {
  }
}
