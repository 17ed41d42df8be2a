# A verified model of the credit, subscription and entitlement core of an image-processing service

This Dafny project models the server-side bookkeeping of an image compression and
conversion web service (a SvelteKit application backed by a relational store, Stripe,
an S3-compatible object store and the sharp image library). It covers the following:

- **The credit ledger** (`Credits`), with the other places that change balances:
  - the per-image charge in the user service (`Users`);
  - the administrator's bulk grant (`Admin`);
  - the `grantCredits` action of the admin users page (`AdminUsers`).
  The central property is the delta invariant: an operation that changes a user's
  `credits` by `d` appends exactly one transaction row of amount `d`. The ghost predicate
  `Credits.LedgerStep` states it, and `Credits.Balanced` (the balance equals the sum of the
  user's rows) is preserved by every ledger step. Lemmas show the two places where the
  code itself breaks the invariant: the per-image charge, and the 15 credits given at
  sign-up, which come with no transaction row.
- **The subscription lifecycle** (`Subscriptions`):
  - activation: demote the current subscription, expire the credits of a prior paid
    one, compute the period end, insert, record a payment, grant credits;
  - cancellation, accepted only from `active`;
  - the expiry sweep, which gathers errors instead of aborting;
  - the days remaining.
  The Stripe webhook (`StripeWebhook`) checks the signature, then maps the event type
  to one subscription call through a decision table.
- **Entitlement** (`PricingTypes`, `Pricing`, `Dashboard`): the tier ordering, the
  `TIER_FEATURES` table, feature access, and the dashboard's `process` gate. The gate
  checks, in order: a signed-in user, permission for the action, the quality cap,
  a non-empty batch, then enough credits.
- **Image handling** (`Images`, `Storage`, `Ai`, `DownloadBatch`):
  - output-format and encoder selection, the storage key and the result record of
    `ImageService.process`;
  - the alt-text and compression heuristics;
  - the ZIP entry-name sanitiser of the batch download.
- **Administration** (`Admin`, `AdminUsers`, `AdminTransactions`, `AdminSettings`):
  - revenue and sign-up day series and the storage totals;
  - the filtered transaction listing and its CSV export, which doubles quotes as in
    RFC 4180, section 2, rule 7;
  - the old-file sweep and the maintenance switch;
  - the users and transactions pages and the administrator's settings page.
- **Sign-in and requests** (`Auth`, `Hooks`, `Layout`, `Settings`):
  - registration, login and the Google sign-in merge, with its avatar-sync rules;
  - the server hook's session check, including expiry and removal of dead cookies;
  - announcement targeting in the root layout;
  - the validation chains of the account settings page.
- **The unused-import clean-up script** (`UnusedImports`): it applies the edits in
  reverse order, splices the Svelte script region, counts the import lines removed, and
  writes files only after the user confirms.

## How the model is built

The whole store is one value, `Db.State`, with a table per entity. The tables are
users, credit transactions, pricing plans, subscriptions, payments, processing history,
sessions, announcements and system configuration, plus an id counter. The
`Db.Database` class holds the same tables as `seq` fields, and the services change
them in place.

Every operation that changes state is written twice:

- as a function from the old `State` to a `Result` carrying the new `State`; the
  lemmas speak about this function;
- as a method of a service class (`Credits.CreditService`, `Admin.AdminService`, the
  page classes, and so on) that updates the database; its `ensures` ties
  `db.Snapshot()` to that function.

Read-only helpers are plain functions. Loops in the source stay loops, each with its
invariants: the expiry sweep, the bulk grant, the day grouping, the CSV and export
rows, the file sweep, the per-file processing, the edit application and the file scan.

The following become parameters of the model:

- the clock, as an integer in milliseconds;
- password hashing and verification, token minting, image decoding and encoding,
  the object store's uploads and URL signing (each with the message it may throw),
  Stripe's lookups, `JSON.parse`, `parseInt`, and the calendar shifts and date keys.

Some of the code's behaviour is easy to misread, and the model states it as written:

- **The ledger invariant.** One would expect the balance to equal the sum of the
  user's ledger rows. The code keeps this in `CreditService`, in activation
  (`Subscriptions.ActivateKeepsBalanced`), in the expiry sweep and in the admin grants.
  It does not keep it in `recordActivity` or at sign-up. `Users.RecordActivityBreaksLedger`,
  `Auth.RegisterBypassesLedger` and `Auth.OAuthSignupBypassesLedger` show both breaks.
- **A redelivered activation.** `addCredits` guards against a replayed reference id
  (the idempotency check at src/lib/server/services/CreditService.ts:40), but activation
  as a whole has no such guard. Replaying an activation with the same payment reference
  expires the credits the first call granted. The `addCredits` replay then adds nothing,
  so a balance that started non-negative ends at exactly 0
  (`Subscriptions.RepeatedActivationClearsBalance`).
- **Charging a failed batch.** The dashboard charges each image as soon as that image
  is stored and signed. When a later image fails, the request answers 500, and the
  images before it stay charged (`Dashboard.DashboardActions.Process`).
- **Transaction types.** The code declares `subscription_renew`, `usage`, `expired`,
  `bonus` and `refund`. The admin grant writes `admin_grant`, which is not among them
  (`PricingTypes.DeclaredTxTypeNames`).
- **The image options.** The dashboard assembles crop, resize, watermark, metadata and
  upscale options, but `ImageService.process` never reads them
  (`Images.OnlyFourOptionsMatter`).
- **The prior-subscription lookup.** During activation it reads through the outer
  connection rather than the transaction. The model reads it from the store as it was
  before the transaction, as under read-committed isolation, so the lookup does not see
  the demotion made earlier in that transaction.
- **Newest first.** "Newest first" orderings are table order reversed, since rows are
  appended in creation order.

## Model

| member | source | states |
|---|---|---|
| PricingTypes.TierOfName | src/lib/types/pricing.ts:1 | the tier names are exactly `free`, `starter`, `pro`, `business`: a name maps to the tier it names, and any other string to no tier |
| PricingTypes.DeclaredTxTypeNames | src/lib/types/pricing.ts:3 | the declared credit transaction types are exactly `subscription_renew`, `usage`, `expired`, `bonus`, `refund`, with distinct names, and `admin_grant` is not one of them |
| PricingTypes.TierFeatures | src/lib/types/pricing.ts:19-56 | compress, convert and resize are on for every tier; removeBg and watermark exactly for pro and business; apiAccess and batchProcessing exactly for business |
| PricingTypes.FreeAndStarterAgree | src/lib/types/pricing.ts:20-37 | the free and starter rows of the table are identical |
| Credits.Balance | src/lib/server/services/CreditService.ts:23-30 | an unknown user's balance is 0; a known user's is the `credits` of their row |
| Credits.FindByReference | src/lib/server/services/CreditService.ts:42-44 | the lookup returns the first row, of any user, whose referenceId and type both match, or none when no row matches |
| Credits.Add | src/lib/server/services/CreditService.ts:32-71 | fails exactly for an unknown user; a replay of a recorded non-empty (referenceId, type) changes nothing and returns that row with the current balance; otherwise the balance rises by `amount` and exactly one row (default description `Added N credits`) is appended; either way it is a ledger step (the delta invariant) |
| Credits.AddIsIdempotent | src/lib/server/services/CreditService.ts:41-50 | after a successful call with a non-empty reference, a second call with that reference and type, whatever its amount, changes nothing and returns the first row |
| Credits.Deduct | src/lib/server/services/CreditService.ts:73-107 | an unknown user fails; a balance below `amount` fails with 'Insufficient credits' and changes nothing; otherwise the result is `old - amount`, never negative, and one `usage` row of `-amount` is appended; a ledger step |
| Credits.Expire | src/lib/server/services/CreditService.ts:109-140 | a balance of 0 or below returns 0 and changes nothing; a positive balance becomes 0, is returned, and one `expired` row of minus it that references the subscription is appended; a ledger step |
| Credits.PostIsLedgerStep | src/lib/server/services/CreditService.ts:52-65 | setting the balance to old plus the row's amount and appending that row is a ledger step: only that user's `credits` and the ledger change, by the same amount |
| Credits.LedgerStepKeepsBalanced | src/lib/server/services/CreditService.ts:52-65 | a ledger step keeps every user's balance equal to the sum of that user's ledger rows |
| Credits.AddReplay | src/lib/server/services/CreditService.ts:46-49 | proof step of `Credits.CreditService.AddCredits` (it unfolds the pure operation): a replay for an existing user returns the current balance and the earlier row, and leaves the store unchanged |
| Credits.AddWrites | src/lib/server/services/CreditService.ts:52-67 | proof step of `Credits.CreditService.AddCredits` (it unfolds the pure operation): a fresh addition is exactly the balance update plus the appended row |
| Credits.DeductWrites | src/lib/server/services/CreditService.ts:88-103 | proof step of `Credits.CreditService.DeductCredits` (it unfolds the pure operation): a deduction that passes the check is exactly the decrement plus the appended `usage` row |
| Credits.RowsOf | src/lib/server/services/CreditService.ts:148 | the selected rows are exactly the user's rows, and only those |
| Credits.RowsOfAppend | src/lib/server/services/CreditService.ts:148 | the user's rows of two ledgers put together are the user's rows of the first followed by those of the second: selection keeps order and multiplicity |
| Credits.Transactions | src/lib/server/services/CreditService.ts:142-153 | the page is the user's ledger rows in reverse table order (newest first) from position `offset` on: `limit` of them, or as many as remain, and none when `offset` reaches the user's row count |
| Credits.Summarize | src/lib/server/services/CreditService.ts:170-182 | all three totals of the fold are non-negative |
| Credits.SummaryIsPerBucket | src/lib/server/services/CreditService.ts:171-179 | each row lands in exactly one bucket (`expired` by type, else added when the amount is positive, else used); each total is the sum of the magnitudes of its bucket's rows |
| Credits.SummaryNetsToSum | src/lib/server/services/CreditService.ts:170-182 | when every `expired` row is a debit, as `expireCredits` writes them, added − used − expired equals the sum of the amounts |
| Credits.InRange | src/lib/server/services/CreditService.ts:160-168 | the rows read are exactly the ledger rows of the user with `start <= createdAt <= end` |
| Credits.TransactionSummary | src/lib/server/services/CreditService.ts:155-183 | each total is the sum of the magnitudes of the selected rows classified into its bucket, so none is negative |
| Credits.TransactionSummaryAppend | src/lib/server/services/CreditService.ts:170-182 | appending a ledger row changes the summary by exactly that row's bucket step when the row is the user's and in the window, and not at all otherwise |
| Credits.CreditService.Record | src/lib/server/services/CreditService.ts:52-65 | sets the row's balance and appends one ledger row under the next id, and the store becomes `Post` |
| Credits.CreditService.AddCredits | src/lib/server/services/CreditService.ts:32-71 | the store and the result are those of `Add`; on failure nothing changes |
| Credits.CreditService.DeductCredits | src/lib/server/services/CreditService.ts:73-107 | the store and the result are those of `Deduct`; on failure nothing changes |
| Credits.CreditService.ExpireCredits | src/lib/server/services/CreditService.ts:109-140 | the store and the result are those of `Expire` |
| Credits.CreditService.constructor | src/lib/server/services/CreditService.ts:19-21 | the service keeps the store it is given |
| Subscriptions.ActiveSubscription | src/lib/server/services/SubscriptionService.ts:31-41 | the result is the user's `active` row with `currentPeriodEnd >= now` that is newest (no later row qualifies), or none when no row qualifies; cancelled rows are never returned |
| Subscriptions.PeriodEnd | src/lib/server/services/SubscriptionService.ts:49-59 | `month` gives one calendar month later, `year` one year later, and every other interval 2099-12-31 |
| Subscriptions.Demote | src/lib/server/services/SubscriptionService.ts:62-71 | each of the user's `active` rows becomes `cancelled` with `cancelledAt = now`, every other row is unchanged, and afterwards the user has no `active` row |
| Subscriptions.LookupAfterDemotionFindsNothing | src/lib/server/services/SubscriptionService.ts:62-76 | a prior-subscription lookup that did see the demotion would find nothing, so the expiry branch would be dead under that reading; the model therefore looks the prior subscription up in the store as it was before the demotion |
| Subscriptions.OrderId | src/lib/server/services/SubscriptionService.ts:99 | the order id is the payment id when it is non-empty, else `SUB-<subscription id>` |
| Subscriptions.ClearPrior | src/lib/server/services/SubscriptionService.ts:62-76 | the user's active rows are demoted; the balance becomes 0 when the prior current subscription is on a paid plan and the balance is positive, and is otherwise kept; payments, plans, user ids and the payment id's ledger lookup are unchanged |
| Subscriptions.ActivateSteps | src/lib/server/services/SubscriptionService.ts:61-102 | after the demotion and the expiry, one new `active` row (period from now to the period end, `creditsRemaining = plan.credits`, no Stripe id) and one `paid` payment row for the plan's price are appended |
| Subscriptions.Activate | src/lib/server/services/SubscriptionService.ts:43-114 | activation fails exactly when the plan is unknown (first) or the user is unknown |
| Subscriptions.ActivateRows | src/lib/server/services/SubscriptionService.ts:62-102 | after activation every earlier active row of the user is `cancelled` at now, the new row is the user's only `active` one and ignores any Stripe id, and one payment row is written per call with order id `paymentId` or `SUB-<id>` |
| Subscriptions.ActivateBalance | src/lib/server/services/SubscriptionService.ts:73-110 | the new balance is the cleared balance plus `plan.credits`, or plus 0 when the payment id was already granted |
| Subscriptions.ClearPriorFrame | src/lib/server/services/SubscriptionService.ts:62-76 | clearing the prior subscription changes no user row but the user's credits and no history, session, announcement or setting, and appends exactly the one `expired` row of minus the balance (referencing the prior subscription's id) when that subscription is on a paid plan and the balance is positive, and nothing otherwise |
| Subscriptions.ActivateFrame | src/lib/server/services/SubscriptionService.ts:61-110 | activation changes no user row but the user's credits and no history, session, announcement or setting; the ledger becomes the old ledger, then the prior subscription's `expired` row when one is written, then one `subscription_renew` row of `plan.credits` described `<displayName> subscription activated` with reference `paymentId`, left out on a replay of that payment id |
| Subscriptions.ClearPriorKeepsBalanced | src/lib/server/services/SubscriptionService.ts:62-76 | clearing the prior subscription keeps every user's balance equal to the sum of that user's ledger rows |
| Subscriptions.ActivateKeepsBalanced | src/lib/server/services/SubscriptionService.ts:61-111 | activation keeps every user's balance equal to the sum of that user's ledger rows |
| Subscriptions.RepeatedActivationClearsBalance | src/lib/server/services/SubscriptionService.ts:73-110 | a second activation with the same payment id, on a paid plan within the first period, expires the credits the first one granted and grants none: the balance ends at or below 0, and at exactly 0 when it started non-negative and the plan grants a non-negative amount |
| Subscriptions.FindCancellable | src/lib/server/services/SubscriptionService.ts:117-123 | finds a row with that id, owned by the user and `active`, or none when there is none |
| Subscriptions.Cancel | src/lib/server/services/SubscriptionService.ts:116-136 | fails with no change exactly when no row with that id is the user's and `active`; otherwise exactly that row becomes `cancelled` at now and nothing else changes |
| Subscriptions.DueIndices | src/lib/server/services/SubscriptionService.ts:142-148 | the candidates are exactly the `active` rows with `currentPeriodEnd < now`, in table order |
| Subscriptions.SweepOne | src/lib/server/services/SubscriptionService.ts:150-160 | one iteration keeps the number of subscription rows |
| Subscriptions.SweepOneEffects | src/lib/server/services/SubscriptionService.ts:150-160 | one iteration marks the row `expired` exactly when its owner exists, reports an error exactly when it does not, and touches no other row or table |
| Subscriptions.SweepOneOutcome | src/lib/server/services/SubscriptionService.ts:151-159 | an iteration expires the owner's credits and then marks the row; when expiring throws, nothing changes and the message `Failed to process subscription <id>: <error>` is reported |
| Subscriptions.SweepFrom | src/lib/server/services/SubscriptionService.ts:150-160 | the loop keeps the number of rows and reports at most one error per candidate |
| Subscriptions.Sweep | src/lib/server/services/SubscriptionService.ts:138-163 | `processed` is the number of candidates, and there are at most that many errors |
| Subscriptions.SweepFromFrame | src/lib/server/services/SubscriptionService.ts:150-160 | the sweep changes no user id and no table other than subscriptions, users and the ledger |
| Subscriptions.SweepFromUntouched | src/lib/server/services/SubscriptionService.ts:150-160 | a row that is not a candidate is left alone |
| Subscriptions.SweepFromMarks | src/lib/server/services/SubscriptionService.ts:152-156 | each candidate ends `expired` exactly when its owner exists |
| Subscriptions.SweepFromRows | src/lib/server/services/SubscriptionService.ts:150-160 | the sweep marks exactly the candidates whose owner exists and leaves every other row alone |
| Subscriptions.SweepFromErrors | src/lib/server/services/SubscriptionService.ts:157-159 | the error list is empty exactly when every candidate's owner exists: a failure is recorded and the loop goes on |
| Subscriptions.SweepFromKeepsBalanced | src/lib/server/services/SubscriptionService.ts:152 | the sweep keeps every balance equal to the sum of that user's ledger rows |
| Subscriptions.NoneDueAfter | src/lib/server/services/SubscriptionService.ts:142-160 | once all candidates have existing owners and are processed, no row is both `active` and past its period end |
| Subscriptions.SweepClearsDue | src/lib/server/services/SubscriptionService.ts:138-163 | when every candidate's owner exists, the sweep reports no errors and leaves no `active` row whose period has ended |
| Subscriptions.CeilDiv | src/lib/server/services/SubscriptionService.ts:183 | the result is the ceiling of `a / b` |
| Subscriptions.DaysRemaining | src/lib/server/services/SubscriptionService.ts:173-186 | 0 without a current subscription; otherwise the ceiling of the days to the period end, never below 0 |
| Subscriptions.RowsOf | src/lib/server/services/SubscriptionService.ts:167 | the selected rows are exactly the user's subscriptions, in table order |
| Subscriptions.RowsOfAppend | src/lib/server/services/SubscriptionService.ts:167 | the user's rows of two tables put together are the user's rows of the first followed by those of the second |
| Subscriptions.History | src/lib/server/services/SubscriptionService.ts:165-171 | the user's subscription rows, all of them and no other, in reverse table order (newest first) |
| Subscriptions.SubscriptionService.constructor | src/lib/server/services/SubscriptionService.ts:21-29 | the service writes through the same store as its credit service |
| Subscriptions.SubscriptionService.ActivateSubscription | src/lib/server/services/SubscriptionService.ts:43-114 | the store and the result are those of `Activate`; a failure leaves the store unchanged |
| Subscriptions.SubscriptionService.EnterSubscription | src/lib/server/services/SubscriptionService.ts:61-102 | the store and the new row are those of `ActivateSteps` |
| Subscriptions.SubscriptionService.ClearPriorSubscription | src/lib/server/services/SubscriptionService.ts:62-76 | the store becomes `ClearPrior` of the old store |
| Subscriptions.SubscriptionService.CancelSubscription | src/lib/server/services/SubscriptionService.ts:116-136 | the store and the result are those of `Cancel` |
| Subscriptions.SubscriptionService.ProcessOne | src/lib/server/services/SubscriptionService.ts:151-159 | one loop iteration does what `SweepOne` states |
| Subscriptions.SubscriptionService.ProcessExpiredSubscriptions | src/lib/server/services/SubscriptionService.ts:138-163 | the store and the result are those of `Sweep` |
| Users.UserCredits | src/lib/server/services/UserService.ts:15-24 | the dashboard's credit read equals the ledger service's balance, and is 0 for a missing user |
| Users.Record | src/lib/server/services/UserService.ts:27-67 | an unknown user fails; a balance below 1 fails with 'Insufficient credits' and no change; otherwise the balance drops by exactly 1 and the stored row, which is also the returned one, is the old row with only its credits changed; one history row is appended (`creditsUsed = 1`, not permanent, expiring 7 days after now), no ledger row is written, and no other table or user changes |
| Users.RecordActivityBreaksLedger | src/lib/server/services/UserService.ts:40-66 | a balance that equalled the sum of its ledger rows no longer does after a recorded activity: the charge bypasses the ledger |
| Users.UserHistory | src/lib/server/services/UserService.ts:69-81 | the first 20 (or all, when fewer) of the user's rows that are permanent, unexpired or without expiry, in reverse table order (newest first) |
| Users.Delete | src/lib/server/services/UserService.ts:83-90 | the kept rows are the rows not matching both the history id and the user id, in table order; the count returned is the number of matching rows; no other table changes |
| Users.MarkPermanent | src/lib/server/services/UserService.ts:95-108 | only rows matching both ids change; `true` sets permanent and clears the expiry, `false` sets not permanent and an expiry 7 days after now |
| Users.CleanupExpired | src/lib/server/services/UserService.ts:113-125 | the kept rows are the rows that are permanent or not yet expired, in table order; the count returned is the number of non-permanent rows whose expiry is before now |
| Users.CleanupLeavesOnlyVisible | src/lib/server/services/UserService.ts:113-124 | after a cleanup every remaining row passes the history page's visibility filter |
| Users.UserService.constructor | src/lib/server/services/UserService.ts:11-13 | the service keeps the store it is given |
| Users.UserService.RecordActivity | src/lib/server/services/UserService.ts:27-67 | the store and the result are those of `Record`; a failure changes nothing |
| Users.UserService.DeleteHistory | src/lib/server/services/UserService.ts:83-90 | the store and the count are those of `Delete` |
| Users.UserService.MarkHistoryPermanent | src/lib/server/services/UserService.ts:95-108 | the store becomes `MarkPermanent` of the old store |
| Users.UserService.CleanupExpiredHistory | src/lib/server/services/UserService.ts:113-125 | the store and the count are those of `CleanupExpired` |
| Pricing.TierLevel | src/lib/server/services/PricingService.ts:91-100 | every tier's level is between 0 and 3 |
| Pricing.TierLevelOrder | src/lib/server/services/PricingService.ts:91-100 | free < starter < pro < business by level, and no two tiers share a level |
| Pricing.IsTierAtLeast | src/lib/server/services/PricingService.ts:102-104 | every tier is at least `free` and at least itself, `business` is at least every tier, and `free` is at least only `free` |
| Pricing.TierAtLeastIsTotalOrder | src/lib/server/services/PricingService.ts:102-104 | `isTierAtLeast` is reflexive, antisymmetric, transitive and total |
| Pricing.FeaturesGrowWithTier | src/lib/types/pricing.ts:19-56 | every feature enabled at a tier is enabled at every tier that is at least as high |
| Pricing.FeatureAccess | src/lib/server/services/PricingService.ts:71-83 | `business` has every feature; `pro` has exactly `remove_bg` and `watermark`; any other tier name has none |
| Pricing.FeatureAccessMatchesTable | src/lib/server/services/PricingService.ts:71-83 | for every tier and feature, `hasFeatureAccess` agrees with the `TIER_FEATURES` table |
| Pricing.UserTier | src/lib/server/services/PricingService.ts:49-69 | `free` without a current subscription, otherwise the name of its plan |
| Pricing.HasFeatureAccess | src/lib/server/services/PricingService.ts:71-83 | a feature is granted only on a `pro` or `business` plan, and every feature on `business` |
| Pricing.HasActiveSubscription | src/lib/server/services/PricingService.ts:85-89 | a user has an active subscription only with a current subscription row |
| Pricing.NoSubscriptionNoFeatures | src/lib/server/services/PricingService.ts:63-89 | without a current subscription a user has no feature and no active subscription |
| Pricing.HasActiveSubscriptionIff | src/lib/server/services/PricingService.ts:85-89 | `hasActiveSubscription` holds exactly when there is a current subscription whose plan is not named `free` |
| Pricing.ParseFeatures | src/lib/server/services/PricingService.ts:106-122 | a falsy value gives `[]`; an array is returned unchanged; any other non-string gives `[]`; a non-empty string gives the parse result, or `[]` when parsing throws |
| Web.TierOf | src/routes/dashboard/+page.server.ts:67 | the tier is the user's `planTier` when non-empty, else `free`; never empty |
| Dashboard.SelectedAction | src/routes/dashboard/+page.server.ts:71 | the first catalogue entry whose value equals the submitted action, or none when no entry matches |
| Dashboard.InitialQuality | src/routes/dashboard/+page.server.ts:47 | quality is the parsed number when it parses to a non-zero value, and 80 when it is absent, unparsable or 0 |
| Dashboard.CappedQuality | src/routes/dashboard/+page.server.ts:77 | the capped quality is the smaller of the quality and the tier maximum |
| Dashboard.Gate | src/routes/dashboard/+page.server.ts:39-86 | in order: 401 without a user; 403 `Feature "<label>" required Pro plan.` for a catalogue action the tier may not use; 400 'No images selected' for no files or an empty first file; 400 'Insufficient credits.' when credits are fewer than the files; otherwise the defaulted, capped quality |
| Dashboard.PermissionPrecedesCredits | src/routes/dashboard/+page.server.ts:71-86 | a request refused with 403 is refused the same way whatever the stored credits and whatever files were sent |
| Dashboard.AdmittedCanPay | src/routes/dashboard/+page.server.ts:79-86 | an admitted request comes from a stored user with at least one file and a credit for each file |
| Dashboard.FileOptions | src/routes/dashboard/+page.server.ts:95-118 | `type` defaults to compress; with smartCompression the quality is the AI suggestion, else the capped quality; resize is passed exactly when width or height is a non-zero number; watermark exactly for a non-empty file or a non-empty text, with position defaulting to `southeast`; stripMetadata is `on`, upscale is `true` |
| Dashboard.EffectsUpToAt | src/routes/dashboard/+page.server.ts:89-118 | entry `j` of the effects of the first `n` files is what `ImageService.process` does for file `j`, called with that file's options at `clock(j)` |
| Dashboard.ChargesBalance | src/routes/dashboard/+page.server.ts:127-133 | charging `n` processed files of a user who holds at least `n` credits leaves the user in place, `n` credits poorer, and uses `n` fresh ids |
| Dashboard.ChargesFrame | src/routes/dashboard/+page.server.ts:127-133 | charging files leaves every other user's row, the number of users, the ledger, subscriptions, payments, plans, sessions, announcements and settings as they were |
| Dashboard.ChargesLastRow | src/lib/server/services/UserService.ts:34-63 | the last file's charge appends one history row: the next id, the user, action, format, the stored key and public URL, a cost of one credit, an expiry seven days after that file's time, not permanent, created at that time |
| Dashboard.ChargesHistory | src/routes/dashboard/+page.server.ts:127-133 | charging `n` files of a user who holds at least `n` credits keeps the earlier history as it was and appends exactly `n` rows |
| Dashboard.DoneStep | src/routes/dashboard/+page.server.ts:89-145 | proof step of `ProcessAll`: one more file that `process` returns a record for extends the results by that file's entry (its URLs, sizes, format and alt text) |
| Dashboard.RanStep | src/routes/dashboard/+page.server.ts:89-133 | proof step of `ProcessAll`: one more processed and charged file extends the database by that file's charge and the object store by that file's upload |
| Dashboard.DashboardActions.constructor | src/routes/dashboard/+page.server.ts:11-12 | the actions use the given user and image services |
| Dashboard.DashboardActions.Process | src/routes/dashboard/+page.server.ts:38-156 | a refused request answers the gate's failure and changes nothing; an admitted one whose files all process answers success, with `newCredits = startCredits - files.length`, which is then the stored balance; the database is then exactly the start with one `recordActivity` per file in order (`Charges`) and the object store the start with every file's upload; result `i` carries file `i`'s public and download URL, original and new size, format and, when asked, its alt text; a rejection is a 500 whose message is the message thrown for the first file that failed (encoding, upload or signing), or `Processing failed` when that message is empty, with the database charged for exactly the files before it and the store holding their uploads and whatever the failed file uploaded |
| Dashboard.DashboardActions.ProcessAll | src/routes/dashboard/+page.server.ts:88-155 | every file is processed and charged one credit in turn: on success the database is exactly the start with each file's `recordActivity` applied in order, the object store the start with each file's upload, the balance lower by the number of files and result `i` file `i`'s entry (URLs, sizes, format, alt text); a rejection is a 500 carrying the message thrown for the first file whose `process` throws (`Processing failed` when it is empty), every earlier file having processed, with the database charged for exactly those earlier files and the store holding their uploads and whatever the failed file uploaded |
| Dashboard.DashboardActions.ProcessFile | src/routes/dashboard/+page.server.ts:90-144 | one file: the object store gains exactly what `process` uploaded; a failure exactly when `process` throws (encoding, upload or signing), carrying the thrown message and leaving the database unchanged; otherwise the database is exactly that of `recordActivity` for the user with the stored key and public URL at the file's time (which succeeds), and the result carries the returned URLs, sizes and format, the file's original size and, when asked, its alt text |
| Dashboard.FailureMessage | src/routes/dashboard/+page.server.ts:152-154 | the 500's message is never empty: the thrown message whenever it is not empty, else `Processing failed` |
| Dashboard.DashboardActions.Delete | src/routes/dashboard/+page.server.ts:158-171 | 401 without a user and 400 'Invalid history ID' without a history id, both with no change; otherwise the history is that of `deleteHistory` for the user |
| Dashboard.DashboardActions.TogglePermanent | src/routes/dashboard/+page.server.ts:178-192 | the same guards; otherwise the history is that of `markHistoryPermanent` for the user, permanent exactly when the field is `true` |
| Images.OutputFormat | src/lib/server/services/ImageService.ts:36-41 | for compress the detected format, or `jpg` when none is detected, whatever the target; for every other type the target format, or `jpeg` when none is given |
| Images.CompressIgnoresTarget | src/lib/server/services/ImageService.ts:38-41 | with compress, any two target formats give the same output format |
| Images.EncoderFor | src/lib/server/services/ImageService.ts:43-54 | the encoder depends only on the format: quality 60 with mozjpeg for `jpg`/`jpeg`, level 8 with a palette for `png`, quality 60 for `webp`, and no encoder call for any other format |
| Images.StorageKeyShape | src/lib/server/services/ImageService.ts:58 | the key is under `users/<userId>/`, and its text after the last `.` is the format |
| Images.ContentType | src/lib/server/services/ImageService.ts:65 | the content type is `image/` followed by the format |
| Images.Outcome | src/lib/server/services/ImageService.ts:31-82 | on success the object is stored and the reported original size is the input file's size |
| Images.OutcomeSteps | src/lib/server/services/ImageService.ts:31-82 | the object is stored exactly when encoding and the upload succeed, under `users/<userId>/<timestamp>.<format>` with the encoded bytes as `image/<format>`; the call succeeds exactly when encoding, upload and both signings succeed, and then reports the output format, that key, the input size, the encoded length and the two signed URLs; otherwise it throws the message of the first step that threw |
| Images.OnlyFourOptionsMatter | src/lib/server/services/ImageService.ts:31-58 | two inputs that agree on file, type, target format and user give the same result: quality, resize, metadata stripping, upscaling and watermark are never read |
| Images.ImageService.constructor | src/lib/server/services/ImageService.ts:16-28 | the service uploads into the given object store |
| Images.ImageService.Process | src/lib/server/services/ImageService.ts:31-82 | returns the result of `Outcome` and stores its object under its key, and nothing else; a call that fails before or at the upload stores nothing, one whose signing fails keeps the uploaded object |
| Storage.ObjectStore.constructor | src/lib/server/services/ImageService.ts:16-28 | a new store holds no objects |
| Storage.ObjectStore.Put | src/lib/server/services/ImageService.ts:60-67 | a put that does not throw stores the object under the key, replacing any earlier one, and no other key changes; a put that throws changes nothing and passes on the message |
| Storage.ObjectStore.Delete | src/lib/server/services/AdminService.ts:135-142 | a delete that succeeds removes exactly that key; a failing delete changes nothing |
| Ai.SeparatorsToSpaces | src/lib/server/services/AIService.ts:11 | each `-` and `_` becomes a space and every other character is kept in place |
| Ai.RemoveDigits | src/lib/server/services/AIService.ts:11 | exactly the digits are removed: text without digits is unchanged and a single digit becomes empty |
| Ai.RemoveDigitsAppend | src/lib/server/services/AIService.ts:11 | removing digits works piece by piece, so the kept characters keep their order and multiplicity |
| Ai.SpacedHasNoSeparator | src/lib/server/services/AIService.ts:11 | the spaced text before the first `.` holds no `-`, `_` or `.` |
| Ai.TrimKeepsNameChars | src/lib/server/services/AIService.ts:11 | trimming text free of digits, separators and dots gives a cleaned name |
| Ai.CleanName | src/lib/server/services/AIService.ts:11 | the name part (text before the first `.`, separators as spaces, digits removed, ends trimmed) holds no digit, `-`, `_` or `.`, and no whitespace at either end |
| Ai.CleanNameOfCleanStem | src/lib/server/services/AIService.ts:11 | a name that is already clean is its own cleaned name and the cleaned name of itself followed by any extension |
| Ai.Capitalize | src/lib/server/services/AIService.ts:13 | only the first character is upper-cased; the rest is unchanged |
| Ai.Suffix | src/lib/server/services/AIService.ts:16-18 | the suffix starts `graphic/illustration` exactly for `png` and `image` otherwise, and ends ` (high resolution)` exactly when the size exceeds 1048576 bytes |
| Ai.AltText | src/lib/server/services/AIService.ts:9-21 | the alt text is the capitalised cleaned name, one space and the suffix, and its name part is itself a clean name |
| Ai.UpperKeepsClass | src/lib/server/services/AIService.ts:13 | capitalising keeps the name free of digits, separators, dots and edge whitespace |
| Ai.AltTextIgnoresExtension | src/lib/server/services/AIService.ts:11 | only the text before the first `.` matters: two extensions give the same alt text |
| Ai.SuggestCompression | src/lib/server/services/AIService.ts:26-40 | the result is 70, 80 or 90: 70 exactly above 5·1024·1024 bytes, 90 exactly below 500·1024 bytes |
| Ai.SuggestionNonIncreasing | src/lib/server/services/AIService.ts:26-40 | a larger file never gets a higher quality, and the format plays no part |
| Ai.UpscaleFactor | src/lib/server/services/AIService.ts:46-48 | the upscale factor is always 2 |
| StripeWebhook.ResolveUser | src/routes/api/webhook/stripe/+server.ts:50-58 | the metadata `userId` when non-empty; otherwise the customer's metadata `userId` when the subscription names a customer; otherwise the empty metadata value |
| StripeWebhook.SubscriptionChanged | src/routes/api/webhook/stripe/+server.ts:44-153 | activates exactly when the status is `active`, no local row has that Stripe id, and a user (with the customer fallback) and a plan resolve; the payment id is the latest invoice and the Stripe id is the subscription's; otherwise no call |
| StripeWebhook.InvoicePaid | src/routes/api/webhook/stripe/+server.ts:76-121 | no call without a subscription id, or when fetching the subscription from Stripe throws; for a known subscription, a renewal with the fetched period end (seconds × 1000) and the invoice id, never an activation; for an unknown one, an activation with the invoice id exactly when user and plan resolve, else no call |
| StripeWebhook.Dispatch | src/routes/api/webhook/stripe/+server.ts:24-166 | `checkout.session.completed` activates exactly when metadata has both `userId` and `planId`, with the session id as payment id; created/updated and `invoice.paid` follow their rules; `customer.subscription.deleted`, and only it, expires the deleted id; `invoice.payment_failed` makes no call |
| StripeWebhook.Respond | src/routes/api/webhook/stripe/+server.ts:8-171 | 400 'No signature' without a signature, 400 'Invalid signature' when verification throws, otherwise the event's action and `{ received: true }` |
| StripeWebhook.RefusedMakesNoCall | src/routes/api/webhook/stripe/+server.ts:9-20 | a missing or unverifiable signature gives 400 and no subscription call |
| StripeWebhook.Webhook.constructor | src/routes/api/webhook/stripe/+server.ts:4 | the endpoint uses the given subscription service |
| StripeWebhook.Webhook.Post | src/routes/api/webhook/stripe/+server.ts:8-172 | the reply is that of `Respond`, also when handling throws; a refused request or an event with no call leaves the store unchanged; an activation leaves it as `activateSubscription` does, and unchanged when that fails; a renewal or an expiry leaves it as the given `handleRenewal` or `handleExpiry` effect does, with the subscription id, period end and invoice id the decision table chose |
| Hooks.LocalUserOf | src/hooks.server.ts:41-45 | `locals.user` carries the stored user's id, email and credits, and no name, avatar, role or plan tier |
| Hooks.FindSession | src/hooks.server.ts:13-16 | a found session is the stored row with that id together with its stored user; none when no row has the id |
| Hooks.Handle | src/hooks.server.ts:4-52 | no cookie: null locals and nothing deleted; a cookie naming no session: the cookie is deleted and the locals are null; `now >= expiresAt` (so a session expiring exactly now counts as expired): that session row and the cookie are deleted and the locals are null; otherwise the locals copy the session's id, userId and expiresAt and the user's id, email and credits |
| Hooks.LocalsCarryNoRole | src/hooks.server.ts:41-45 | the locals never carry a role or a plan tier, so no request passes an admin role check |
| Hooks.SignedInMeansLiveSession | src/hooks.server.ts:25-45 | a signed-in request names a stored session of that user whose expiry is after now |
| Hooks.RequestEvent.constructor | src/hooks.server.ts:4-5 | a request starts with its cookie and path and no locals |
| Hooks.Hook.constructor | src/hooks.server.ts:2 | the hook uses the given store |
| Hooks.Hook.HandleRequest | src/hooks.server.ts:4-52 | the store, the locals and the cookie become those of `Handle`, and the request always resolves: the `/dashboard` redirect after `locals.user` is set never fires |
| Layout.Shown | src/routes/+layout.server.ts:15-22 | the announcements shown are exactly the stored ones that are active, with no expiry or expiry at or after now, and whose target is in the user's target set, each once per stored row, in reverse table order (newest first) |
| Layout.ProAnnouncementAudience | src/routes/+layout.server.ts:11-13 | a live `pro` announcement reaches pro and business users and neither free nor starter users |
| Layout.HookedUsersSeeFreeAudience | src/routes/+layout.server.ts:9 | as the hook never sets a plan tier, a signed-in user sees only announcements targeted at `all` or `free` |
| Layout.LayoutLoad.constructor | src/routes/+layout.server.ts:3 | the load uses the given store |
| Layout.LayoutLoad.Targets | src/routes/+layout.server.ts:9-13 | the target list starts with `all` and the tier (default `free`), and contains `pro` exactly when the tier is pro or business |
| Layout.LayoutLoad.Load | src/routes/+layout.server.ts:5-29 | an anonymous request gets no announcements; a signed-in one gets those of `Shown` for its tier |
| Admin.Grant | src/lib/server/services/AdminService.ts:280-292 | fails (user not found) exactly when the id names no user; otherwise the user's balance rises by `amount`, exactly one ledger row without a reference is appended with the next id, and no other table changes |
| Admin.GrantIsLedgerStep | src/lib/server/services/AdminService.ts:280-292 | a grant to an existing user is one ledger step: only that user's balance moves, by the amount of the one row appended |
| Admin.GrantBalance | src/lib/server/services/AdminService.ts:283 | a grant moves its user's balance by `amount` and every other user's balance by nothing |
| Admin.BulkGrant | src/lib/server/services/AdminService.ts:277-295 | the batch is one grant of type `bonus` per list entry, in list order; a successful batch keeps the set of user ids, advances the id counter by the list length and touches only users and the ledger |
| Admin.BulkGrantSucceedsIff | src/lib/server/services/AdminService.ts:278-294 | the transaction commits exactly when every listed id names a user |
| Admin.BulkGrantPrefixFails | src/lib/server/services/AdminService.ts:278-294 | a failing grant anywhere in the list fails the whole batch (all or nothing) |
| Admin.BulkGrantRows | src/lib/server/services/AdminService.ts:284-290 | a successful batch keeps the old ledger as a prefix and appends, for the k-th entry, a `bonus` row for that user with the amount, the description and no reference |
| Admin.BulkGrantBalances | src/lib/server/services/AdminService.ts:283 | after a successful batch each user's balance has risen by `amount` times the number of times their id occurs in the list |
| Admin.BulkGrantKeepsBalanced | src/lib/server/services/AdminService.ts:277-295 | a batch keeps every user's balance equal to the sum of their ledger rows |
| Admin.GroupSum | src/lib/server/services/AdminService.ts:34-41 | the grouped entries list the keys of the keyed rows once each, in the order they first occur (the insertion order `Object.entries` keeps), so the keys are distinct and exactly those of the keyed rows; each entry holds the sum of its key's rows, and together they hold the total of the keyed rows (the rows with no key are skipped) |
| Admin.InsertAscending | src/lib/server/services/AdminService.ts:29 | placing a row into rows in ascending order keeps them in ascending order and adds exactly that row |
| Admin.SortAscending | src/lib/server/services/AdminService.ts:29 | the sorted rows are in ascending order of the field and are a permutation of the input |
| Admin.SortKeepsMembers | src/lib/server/services/AdminService.ts:29 | sorting keeps exactly the rows it was given |
| Admin.RevenueRows | src/lib/server/services/AdminService.ts:24-31 | the query selects exactly the payments with status `paid` and a `paidAt` at or after the start date, each as often as in the table, in ascending order of `paidAt` |
| Admin.FirstKeysAppend | src/lib/server/services/AdminService.ts:36-39 | one more row adds its key at the end of the first-occurrence order exactly when the row has a key not seen before |
| Admin.RevenueTotalIsPaidTotal | src/lib/server/services/AdminService.ts:35-39 | with the day key of `paidAt`, the day totals add up to the total amount of the payments that carry a `paidAt` |
| Admin.SignupRows | src/lib/server/services/AdminService.ts:48-52 | the query selects exactly the users created at or after the start date, each as often as in the table, in ascending order of `createdAt` |
| Admin.SignupTotalIsCount | src/lib/server/services/AdminService.ts:54-58 | the per-day signup counts add up to the number of users selected |
| Admin.TotalSize | src/lib/server/services/AdminService.ts:113 | the summed size (a missing size counting as 0) is zero exactly when every listed object's size is zero or absent |
| Admin.TotalSizeAppend | src/lib/server/services/AdminService.ts:113 | the summed size of two listings put together is the sum of their summed sizes, so the order of the listing does not matter to the total |
| Admin.TotalSizeBoundsEach | src/lib/server/services/AdminService.ts:113 | every object's size (0 when absent) is at most the total size |
| Admin.StorageStats | src/lib/server/services/AdminService.ts:108-118 | the count is the number of listed objects (0 when the listing has no `Contents`) and the size is the summed size of those objects, so it is 0 exactly when every object's size is 0 or absent |
| Admin.BuildWhere | src/lib/server/services/AdminService.ts:213-220 | the `where` object built field by field is satisfied by a row exactly when the row matches the truthy user id and type and lies within the given date bounds |
| Admin.Take | src/lib/server/services/AdminService.ts:226 | the page size is the given limit when it is non-zero, otherwise 50, and never 0 |
| Admin.Matching | src/lib/server/services/AdminService.ts:213-220 | the rows counted are exactly the ledger rows the parameters select |
| Admin.CreditTransactions | src/lib/server/services/AdminService.ts:222-233 | a negative offset is an error; otherwise the total is the number of selected rows and the page is the selected rows newest first starting `skip` rows in, `take` of them or as many as remain |
| Admin.EscapeQuotes | src/lib/server/services/AdminService.ts:245 | doubling the quotes never shortens the description and keeps exactly the description's characters other than `"` |
| Admin.QuoteRoundTrip | src/lib/server/services/AdminService.ts:245 | reading the quoted description field back under the doubled-quote rule of section 2 of RFC 4180 gives back the description |
| Admin.CsvFields | src/lib/server/services/AdminService.ts:240-248 | a line has one field per header column; the first is the id, the fifth the quoted description and the last the timestamp |
| Admin.CsvRow | src/lib/server/services/AdminService.ts:240-248 | a line starts with the transaction id followed by a comma |
| Admin.CsvRowOneLine | src/lib/server/services/AdminService.ts:240-248 | a line holds no line break unless the email, the description, the reference or the timestamp brings one: the id, user id, type and amount never do |
| Admin.CsvRows | src/lib/server/services/AdminService.ts:238-249 | one CSV line per transaction, in input order, each the row built from that transaction and its user's email |
| Admin.HeaderIsOneLine | src/lib/server/services/AdminService.ts:237 | the header holds no line break |
| Admin.TransactionCsv | src/lib/server/services/AdminService.ts:236-252 | the export starts with the header line and a line break, and with no transactions that is all of it |
| Admin.CsvLines | src/lib/server/services/AdminService.ts:236-252 | when no row contains a line break, the export splits into the header and then one line per transaction in input order; with no transactions the header is followed by one empty line |
| Admin.CleanupCandidates | src/lib/server/services/AdminService.ts:301-307 | the rows visited are exactly the history rows created before the cutoff and not permanent |
| Admin.RowsWithout | src/lib/server/services/AdminService.ts:318 | deleting a history row by id keeps exactly the rows with other ids |
| Admin.Attempts | src/lib/server/services/AdminService.ts:315-316 | the candidates acted on are exactly those whose last URL segment is non-empty |
| Admin.SweepStep | src/lib/server/services/AdminService.ts:312-325 | a candidate with an empty key changes nothing; a failed object deletion leaves the rows and objects as they were and records one error entry with the store's message; otherwise the key is gone from the object store and no row with the candidate's id is left |
| Admin.SweepAll | src/lib/server/services/AdminService.ts:312-326 | the sweep keeps the earlier result entries as a prefix, never adds an object and never adds a row |
| Admin.SweepStepResults | src/lib/server/services/AdminService.ts:312-325 | one pass adds one result entry, naming the candidate, exactly when its key is non-empty, and keeps the earlier entries |
| Admin.SweepReportsEveryAttempt | src/lib/server/services/AdminService.ts:312-326 | an error does not stop the loop: every candidate with a key gets exactly one entry, naming it, in candidate order |
| Admin.SweepKeepsOtherRows | src/lib/server/services/AdminService.ts:318 | the sweep only removes history rows, and keeps every row whose id no candidate has |
| Admin.SweepKeepsOtherObjects | src/lib/server/services/AdminService.ts:317 | the sweep deletes no stored object other than a candidate's key |
| Admin.CleanupKeepsProtectedRows | src/lib/server/services/AdminService.ts:301-307 | with one row per id, a permanent row or one created at or after the cutoff survives the cleanup |
| Admin.MaintenanceMode | src/lib/server/services/AdminService.ts:329-334 | with no `maintenance_mode` entry the switch is off, and it is on only when the entry holds `true` |
| Admin.WithMaintenance | src/lib/server/services/AdminService.ts:336-341 | the upsert adds or overwrites only the `maintenance_mode` entry and leaves every other table and entry as it was |
| Admin.MaintenanceRoundTrip | src/lib/server/services/AdminService.ts:329-341 | reading the switch gives back the value last written; a second write replaces the first |
| Admin.AdminService.constructor | src/lib/server/services/AdminService.ts:8-18 | the service holds the given store and object bucket |
| Admin.AdminService.GrantOne | src/lib/server/services/AdminService.ts:280-292 | the store afterwards is the one `Grant` computes, or unchanged with its error |
| Admin.AdminService.BulkGrantCredits | src/lib/server/services/AdminService.ts:277-295 | the store afterwards is the one `BulkGrant` computes; on failure it is rolled back to where it started and the error is returned |
| Admin.AdminService.RevenueStats | src/lib/server/services/AdminService.ts:20-42 | one entry per day with a paid payment in range, in the order the days first occur among those payments sorted by `paidAt`, keys distinct, each the day's total, together the total of the paid payments in range |
| Admin.AdminService.UserGrowthStats | src/lib/server/services/AdminService.ts:44-61 | one entry per signup day in range, in the order the days first occur among those users sorted by `createdAt`, keys distinct, each the day's count, together the number of users created in range |
| Admin.AdminService.GetCreditTransactions | src/lib/server/services/AdminService.ts:205-234 | the page and total are those `CreditTransactions` specifies for the current store |
| Admin.AdminService.CleanupOldFiles | src/lib/server/services/AdminService.ts:297-327 | the history, the bucket and the results afterwards are those of the sweep over the candidates, and nothing else in the store changes |
| Admin.AdminService.CleanupFile | src/lib/server/services/AdminService.ts:313-324 | one loop pass changes the history, the bucket and the results as one `SweepStep` does, and nothing else |
| Admin.AdminService.GetMaintenanceMode | src/lib/server/services/AdminService.ts:329-334 | the switch is on exactly when the stored value is `"true"`; no entry means off |
| Admin.AdminService.SetMaintenanceMode | src/lib/server/services/AdminService.ts:336-342 | the store afterwards is `WithMaintenance` of the store before |
| Admin.GrantLeavesOthers | src/lib/server/services/AdminService.ts:280-283 | a grant to one user leaves every other user's balance where it was |
| Admin.SweepStepRows | src/lib/server/services/AdminService.ts:318 | one pass only removes history rows, and only rows with the candidate's id |
| Admin.SweepStepObjects | src/lib/server/services/AdminService.ts:317 | one pass deletes no stored object but the candidate's key |
| AdminUsers.UserKeyIndex | src/routes/admin/users/+page.server.ts:25 | finds the first user whose id, written as text, is the submitted `userId`, or none when no user has it |
| AdminUsers.KeyIndexIsUserIndex | src/routes/admin/users/+page.server.ts:25 | the row found by the submitted key is the row found by that user's id |
| AdminUsers.LoadUsers | src/routes/admin/users/+page.server.ts:4-13 | redirects with 303 to `/dashboard` exactly when the caller is not an `ADMIN`; otherwise lists every user, newest first, each with their history count |
| AdminUsers.LoadAfterHookRedirects | src/routes/admin/users/+page.server.ts:5 | since the hook never sets a role, every request to the listing is redirected |
| AdminUsers.ToggleBan | src/routes/admin/users/+page.server.ts:16-30 | throws, with nothing written, exactly when the form names no user; otherwise the named user's `isBanned` becomes the negation of `currentStatus === 'true'` and no other row or table changes |
| AdminUsers.ToggleBanIsIdempotent | src/routes/admin/users/+page.server.ts:19-27 | submitting the same form twice is the same as submitting it once: the flag is set, not flipped |
| AdminUsers.ToggleBanIgnoresStoredFlag | src/routes/admin/users/+page.server.ts:19-27 | the stored flag plays no part: states that differ only in that flag end the same |
| AdminUsers.GrantCredits | src/routes/admin/users/+page.server.ts:31-54 | 400 "Invalid amount", with nothing changed, exactly when the parsed amount is `NaN`, 0 or negative; an unknown user throws with nothing written; otherwise the balance rises by the amount and exactly one `admin_grant` row "Manual grant by Admin" is appended |
| AdminUsers.GrantCreditsIsLedgerStep | src/routes/admin/users/+page.server.ts:38-51 | a successful grant is one ledger step for its user, and the row's type `admin_grant` is not among the declared transaction types of src/lib/types/pricing.ts |
| AdminUsers.GrantCreditsKeepsBalanced | src/routes/admin/users/+page.server.ts:38-51 | the action keeps every user's balance equal to the sum of their ledger rows |
| AdminUsers.OnlyLoadChecksRole | src/routes/admin/users/+page.server.ts:5-54 | a caller `load` turns away still gets a valid grant through the action |
| AdminUsers.UsersPage.constructor | src/routes/admin/users/+page.server.ts:15 | the page's actions run against the given database |
| AdminUsers.UsersPage.ToggleBanAction | src/routes/admin/users/+page.server.ts:16-30 | the new database and the answer are those `ToggleBan` gives for the old one |
| AdminUsers.UsersPage.GrantCreditsAction | src/routes/admin/users/+page.server.ts:31-54 | the new database and the answer are those `GrantCredits` gives for the old one |
| AdminUsers.GrantCreditsWrites | src/routes/admin/users/+page.server.ts:38-51 | proof step of `AdminUsers.UsersPage.GrantCreditsAction` (it unfolds the pure operation): a valid grant to a user the form names is exactly the balance write and the one appended `admin_grant` row of `amount` |
| AdminUsers.UsersPage.WriteGrant | src/routes/admin/users/+page.server.ts:38-51 | the two writes of the transaction: only the user row's `credits` and the ledger change, by one row under the next id |
| AdminTransactions.FilterParam | src/routes/admin/transactions/+page.server.ts:10-11 | an empty or absent parameter becomes no filter; any other value is kept as it is |
| AdminTransactions.PageNumber | src/routes/admin/transactions/+page.server.ts:12 | a missing or empty `page` reads as 1; any other value is parsed (`NaN` possible) |
| AdminTransactions.Offset | src/routes/admin/transactions/+page.server.ts:13-14 | the offset is `(page - 1) * 50`: a multiple of 50, non-negative exactly from page 1 on, with `offset / 50 + 1 == page`; `NaN` stays `NaN` |
| AdminTransactions.TotalPages | src/routes/admin/transactions/+page.server.ts:28 | `ceil(total / 50)`: the pages cover the total, the last page is non-empty, and there are no pages exactly when the total is 0 |
| AdminTransactions.LoadTransactions | src/routes/admin/transactions/+page.server.ts:7-30 | a 303 to `/dashboard` exactly for a non-admin; a page below 1 makes the query throw (negative skip); otherwise the page of the filtered listing with limit 50, the total, the page number and `totalPages` |
| AdminTransactions.LoadAfterHookRedirects | src/routes/admin/transactions/+page.server.ts:8 | since the hook never sets a role, every request to the listing is redirected |
| AdminTransactions.PageWindow | src/routes/admin/transactions/+page.server.ts:12-28 | page `p` is listed exactly when `p >= 1`; it shows the selected rows newest first from position `(p - 1) * 50`, 50 of them or as many as remain, and is non-empty exactly when `p <= totalPages` |
| AdminTransactions.NaNPageIsFirstPage | src/routes/admin/transactions/+page.server.ts:12-14 | a page that parses as `NaN` gives offset 0 and so the rows of page 1, with the page reported as `NaN` |
| AdminTransactions.EmptyParamsFilterNothing | src/routes/admin/transactions/+page.server.ts:10-11 | empty `userId` and `type` parameters give the same answer as none, and the total covers the whole ledger |
| AdminTransactions.Export | src/routes/admin/transactions/+page.server.ts:33-52 | a bare 401 exactly for a non-admin; otherwise the CSV of the selected rows (limit 1000, no offset) and the name `transactions-<date part>.csv` |
| AdminTransactions.ExportRows | src/routes/admin/transactions/+page.server.ts:40-44 | the export holds the newest `min(1000, total)` selected rows, newest first |
| AdminTransactions.ExportFileName | src/routes/admin/transactions/+page.server.ts:50 | for a timestamp `<date>T<time>` the file is `transactions-<date>.csv` |
| AdminTransactions.ExportLines | src/routes/admin/transactions/+page.server.ts:46 | with no line break inside a row, the export has one line per exported transaction plus the header |
| DownloadBatch.SanitizeFilename | src/routes/api/download-batch/+server.ts:7-14 | the entry name is never empty and holds neither `/` nor `?` |
| DownloadBatch.PlainNameUnchanged | src/routes/api/download-batch/+server.ts:9-10 | a non-empty name with neither `/` nor `?` is kept as it is |
| DownloadBatch.SanitizeIsIdempotent | src/routes/api/download-batch/+server.ts:7-14 | sanitising an entry name a second time, whatever the clock reads, gives it back |
| DownloadBatch.EmptySegmentFallsBack | src/routes/api/download-batch/+server.ts:9-10 | a URL ending in `/`, or whose last segment starts with `?`, gets the fallback `image-<now>.jpg` |
| DownloadBatch.LastSegmentKept | src/routes/api/download-batch/+server.ts:9 | for `<path>/<name>?<query>` the entry is named `<name>` |
| DownloadBatch.CheckRequest | src/routes/api/download-batch/+server.ts:16-22 | 401 "Unauthorized" exactly without a user; otherwise 400 "No files specified" unless `urls` is a non-empty array, which is then the list of files |
| UnusedImports.ApplyChange | scripts/remove-unused-imports.ts:97-100 | an edit inside the text replaces exactly the characters from `start` to `start + length` by the new text |
| UnusedImports.ApplyEdits | scripts/remove-unused-imports.ts:91-101 | the loop's result is the edits applied one after the other, in the sorted order, each to the text the previous ones left |
| UnusedImports.EditsAtOriginalOffsets | scripts/remove-unused-imports.ts:93-101 | non-overlapping edits applied from the highest start down give the same text as making every edit at its original offset |
| UnusedImports.EditsKeepOutside | scripts/remove-unused-imports.ts:93-101 | the text before the lowest edit and after the highest edit survives unchanged |
| UnusedImports.SplicedKeepsSuffix | scripts/remove-unused-imports.ts:97-100 | making the edits at their offsets ends with the original text after the highest edit |
| UnusedImports.Insert | scripts/remove-unused-imports.ts:94 | inserting an edit into a list sorted by descending start keeps it sorted and adds exactly that edit |
| UnusedImports.SortByStartDesc | scripts/remove-unused-imports.ts:94 | the sorted edits are in descending order of start and are a permutation of the change set |
| UnusedImports.OneLineCount | scripts/remove-unused-imports.ts:105-106 | a single line counts as one import line exactly when it starts with `import ` |
| UnusedImports.ImportLinesOfLines | scripts/remove-unused-imports.ts:105-106 | the multiline `^import ` count is taken line by line: two texts joined by a line terminator count the sum of their counts |
| UnusedImports.UnusedCount | scripts/remove-unused-imports.ts:107 | the difference is positive exactly when the new count is lower, and then it is the number of import lines removed |
| UnusedImports.Splice | scripts/remove-unused-imports.ts:113 | only the region `[start, end)` is replaced: the text before it and after it is kept |
| UnusedImports.ScriptStartAsWritten | scripts/remove-unused-imports.ts:45 | the offset found is -1 or a place where the body's text occurs, and for a match of the file it is never after the body's own position |
| UnusedImports.ScriptStartAsWrittenAgrees | scripts/remove-unused-imports.ts:45 | the offset found is the body's own position exactly when the body's text does not occur earlier in the file |
| UnusedImports.ScriptStartAsWrittenMisplaced | scripts/remove-unused-imports.ts:44-46 | for `a<script>a</script>` the body's text is first found at 0, not at the body's own position 9, so the splice rewrites the wrong characters |
| UnusedImports.ScriptRegionIsBody | scripts/remove-unused-imports.ts:42-46 | the region at the body's own position holds the body, and splicing there keeps the text up to and including the opening tag |
| UnusedImports.ScriptOf | scripts/remove-unused-imports.ts:36-47 | a file is skipped exactly when it is a `.svelte` file without a script element; the region's length is the script's length; for any other file the script is the whole file over `[0, length)`; for a Svelte file the script is the matched body and its region is the place in the file just after the opening tag that holds exactly that body |
| UnusedImports.PlanFile | scripts/remove-unused-imports.ts:89-125 | a file is queued exactly when its edits remove at least one import line, with its path, its old text and that count; the new text it queues is stated by `UnusedImports.PlanFileNewContent` and `UnusedImports.PlanSvelteNewContent` |
| UnusedImports.PlanFileNewContent | scripts/remove-unused-imports.ts:110-115 | for a file that is not a Svelte file the text queued for writing is the edited file |
| UnusedImports.PlanSvelteNewContent | scripts/remove-unused-imports.ts:110-115 | for a Svelte file the text queued for writing is the old text spliced at the script body's own region, which lies inside the file, with the edited body; by the splice's contract everything outside that region is kept |
| UnusedImports.PlannedIsQueued | scripts/remove-unused-imports.ts:34-126 | the queue holds only files with a positive count, and every file with a positive count is queued |
| UnusedImports.TotalZeroIffEmpty | scripts/remove-unused-imports.ts:110-128 | the running total is 0 exactly when nothing is queued, and is at least the number of queued files |
| UnusedImports.Scan | scripts/remove-unused-imports.ts:34-126 | the loop's queue is exactly the planned files in glob order and its total is the sum of their counts |
| UnusedImports.ConfirmedAnswers | scripts/remove-unused-imports.ts:136 | the answers accepted are `y` and `yes` in any mix of cases, and nothing else |
| UnusedImports.Finish | scripts/remove-unused-imports.ts:128-145 | nothing to clean exactly when the total is 0; files are written exactly when the total is non-zero and the answer is a yes, and then each queued file, in order, with its new text |
| UnusedImports.RunWritesOnlyQueued | scripts/remove-unused-imports.ts:128-145 | a run writes only after a yes, only when something is queued, and only paths of files whose edits remove an import line |
| Auth.WithoutPassword | src/lib/server/services/AuthService.ts:48 | the response keeps every column of the user row except the password |
| Auth.ResponseHidesPassword | src/lib/server/services/AuthService.ts:48 | two rows that differ only in the password give the same response |
| Auth.EmailIndex | src/lib/server/services/AuthService.ts:28-32 | finds the row with the given email, or none when no row has it |
| Auth.RegisterResult | src/lib/server/services/AuthService.ts:20-54 | "missing fields" exactly when the email or password is empty; then "weak password" exactly for fewer than 6 characters; then "email exists" exactly when the email is taken; otherwise one new user with the hashed password and 15 credits is appended and returned without its password |
| Auth.RegisterTwiceFails | src/lib/server/services/AuthService.ts:28-36 | registering the same email a second time is refused with "email exists" |
| Auth.PasswordCheck | src/lib/server/services/AuthService.ts:69-78 | the verdict is the first comparison's; the comparison is repeated exactly when it failed on a `$2a$` or `$2b$` hash |
| Auth.NewSession | src/lib/server/services/AuthService.ts:89 | a session expires seven days (604800000 ms) after it is issued |
| Auth.LoginResult | src/lib/server/services/AuthService.ts:56-107 | every failure is "invalid credentials"; success exactly when the email is found, the account has a password and the password matches; then one seven-day session for the refresh token is appended and the user is returned without the password |
| Auth.LoginAddsOneSession | src/lib/server/services/AuthService.ts:91-97 | a login changes only the session table, by one row with the refresh token as id and expiry seven days on |
| Auth.RegisteredUserCanLogIn | src/lib/server/services/AuthService.ts:20-107 | an account just registered logs in with its password whenever the stored hash matches it |
| Auth.FirstEmailIsNew | src/lib/server/services/AuthService.ts:28-46 | an email absent from the table is found at the row appended with it |
| Auth.OAuthIndex | src/lib/server/services/AuthService.ts:135-139 | finds the first row whose Google id or email matches, or none when no row does |
| Auth.OAuthResult | src/lib/server/services/AuthService.ts:128-231 | only the users, sessions and id counter change, the counter by one exactly when a user is created; exactly one seven-day session for the returned user is appended; with no matching row one new user with 15 credits, the Google id and the uploaded or offered avatar is appended; otherwise only the found row changes, by the computed update; the tokens are passed through |
| Auth.GoogleIdNeverOverwritten | src/lib/server/services/AuthService.ts:180-182 | a stored Google id is never overwritten |
| Auth.AvatarSyncRules | src/lib/server/services/AuthService.ts:187-198 | an avatar that is not a Google URL is never replaced; after a failed upload a stored avatar is kept, and the offered URL is used only when none is stored |
| Auth.UpdateOnlyWhenNeeded | src/lib/server/services/AuthService.ts:178-205 | nothing is written when the update is empty; otherwise only the Google id and the avatar change; a user with a Google id and no offered avatar gets no update |
| Auth.AuthService.constructor | src/lib/server/services/AuthService.ts:15-17 | the service works on the given database |
| Auth.AuthService.Register | src/lib/server/services/AuthService.ts:20-54 | the store afterwards and the answer are those `RegisterResult` specifies; a failure writes nothing |
| Auth.AuthService.Login | src/lib/server/services/AuthService.ts:56-107 | the store afterwards and the answer are those `LoginResult` specifies; a failure writes nothing |
| Auth.AuthService.HandleOAuthUser | src/lib/server/services/AuthService.ts:128-231 | the store afterwards and the answer are those `OAuthResult` specifies |
| Auth.AuthService.CreateOAuthUser | src/lib/server/services/AuthService.ts:149-175 | the new row is created without an avatar and then given the uploaded copy, else the offered URL; the store gains exactly that row |
| Auth.AuthService.SyncOAuthUser | src/lib/server/services/AuthService.ts:176-206 | `updateData` filled field by field gives the found row after `UpdateFor`; only that row changes |
| Auth.NewUserBypassesLedger | src/lib/server/services/AuthService.ts:40-46 | a user inserted under a fresh id with the sign-up credits has a balance of 15 and no ledger row, so the balance is not the sum of the rows |
| Auth.RegisterBypassesLedger | src/lib/server/services/AuthService.ts:40-46 | the 15 credits `register` grants come with no ledger row: the new account breaks the balance-equals-ledger invariant |
| Auth.OAuthSignupBypassesLedger | src/lib/server/services/AuthService.ts:149-159 | an account created by Google sign-in gets its 15 credits with no ledger row either |
| Settings.LoadProfile | src/routes/dashboard/settings/+page.server.ts:7-30 | redirects with 302 to `/` exactly when there is no signed-in user or the user's row is gone; otherwise the id, email, name, credits and avatar of the row |
| Settings.UpdateProfile | src/routes/dashboard/settings/+page.server.ts:33-67 | 401 "Unauthorized" without a user; 400 "Name is required" for an empty name; 500 "Failed to update profile" when the row is gone; otherwise only that user's `name` changes and no other table or row |
| Settings.AvatarKeyShape | src/routes/dashboard/settings/+page.server.ts:91-92 | the object key starts with `avatars/<id>-<now>.` and keeps the uploaded file's extension |
| Settings.AvatarFileCheck | src/routes/dashboard/settings/+page.server.ts:77-88 | "No file uploaded" for a missing or empty file, then "File must be an image" unless the type starts with `image/`, then "File size must be less than 5MB" above 5 MiB; passes exactly for a non-empty image of at most 5 MiB |
| Settings.AvatarSizeBoundary | src/routes/dashboard/settings/+page.server.ts:85 | an image of exactly 5 MiB is accepted and one byte more is refused |
| Settings.StoreAvatar | src/routes/dashboard/settings/+page.server.ts:91-104 | 500 "Failed to update avatar" when the upload fails or the row is gone; otherwise only the user's `avatarUrl` changes, to the uploaded URL |
| Settings.UpdateAvatar | src/routes/dashboard/settings/+page.server.ts:69-105 | 401 without a user, then the file checks, then the upload and the write as `StoreAvatar` |
| Settings.CheckPassword | src/routes/dashboard/settings/+page.server.ts:139-148 | the password is valid exactly when the native check passes or, for a `$2a$`/`$2b$` hash, the bcrypt comparison does; migration is flagged exactly when only the bcrypt comparison passed |
| Settings.PasswordFields | src/routes/dashboard/settings/+page.server.ts:117-127 | "All fields are required" when any field is empty, then "New passwords do not match", then (for the dashboard) "Password must be at least 6 characters"; passes exactly when none of these applies |
| Settings.ReplacePassword | src/routes/dashboard/settings/+page.server.ts:130-164 | 404 "User not found" for a missing row, 500 for an account without a password, 400 "Incorrect current password" when the check fails; otherwise only that user's password changes, to the new hash |
| Settings.UpdatePassword | src/routes/dashboard/settings/+page.server.ts:107-171 | 401 without a user, then the field checks; succeeds exactly when the fields pass, the row exists with a password and the current password checks, and then stores the new hash |
| Settings.ShortPasswordRefused | src/routes/dashboard/settings/+page.server.ts:125-127 | a new password of fewer than 6 characters is refused with 400 |
| Settings.DeleteAccount | src/routes/dashboard/settings/+page.server.ts:173-217 | 401 without a user; 400 "Password is required"; 404 for a missing row; 500 for an account without a password; 400 "Incorrect password"; otherwise the row is removed and the answer is a 302 to `/` |
| Settings.DeleteRemovesOnlyTheUser | src/routes/dashboard/settings/+page.server.ts:206-208 | with one row per id, deletion removes exactly the caller's row, keeps every other user's row and leaves the other tables unchanged |
| Settings.SettingsPage.constructor | src/routes/dashboard/settings/+page.server.ts:32 | the page works on the given database |
| Settings.SettingsPage.UpdateProfileAction | src/routes/dashboard/settings/+page.server.ts:33-67 | the store afterwards and the answer are those `UpdateProfile` specifies; a failure writes nothing |
| Settings.SettingsPage.UpdateAvatarAction | src/routes/dashboard/settings/+page.server.ts:69-105 | the store afterwards and the answer are those `UpdateAvatar` specifies; a failure writes nothing |
| Settings.SettingsPage.UpdatePasswordAction | src/routes/dashboard/settings/+page.server.ts:107-171 | the store afterwards and the answer are those `UpdatePassword` specifies; a failure writes nothing |
| Settings.SettingsPage.DeleteAccountAction | src/routes/dashboard/settings/+page.server.ts:173-217 | the store afterwards and the answer are those `DeleteAccount` specifies; a failure writes nothing |
| AdminSettings.LoadProfile | src/routes/admin/settings/+page.server.ts:7-30 | a 302 to `/dashboard/settings` exactly for a non-admin; a 302 to `/` for an admin whose row is gone; otherwise the profile view |
| AdminSettings.UpdateAvatar | src/routes/admin/settings/+page.server.ts:50-64 | 401 without a user; 400 "No file uploaded" for a missing or empty file and no type or size check; otherwise the upload and write as on the dashboard |
| AdminSettings.UpdatePassword | src/routes/admin/settings/+page.server.ts:66-87 | 401 without a user; the required-fields and matching checks but no minimum length; the current password checked by bcrypt alone; otherwise the new hash is stored |
| AdminSettings.ActionsSkipRoleCheck | src/routes/admin/settings/+page.server.ts:8-67 | a signed-in non-admin is redirected by `load` yet their profile, avatar and password updates all succeed |
| AdminSettings.LooserThanDashboard | src/routes/admin/settings/+page.server.ts:54-75 | a non-image file and a one-character password are refused with 400 on the dashboard and accepted on the admin page |
| AdminSettings.AdminSettingsPage.constructor | src/routes/admin/settings/+page.server.ts:32 | the page works on the given database |
| AdminSettings.AdminSettingsPage.UpdateAvatarAction | src/routes/admin/settings/+page.server.ts:50-64 | the store afterwards and the answer are those `UpdateAvatar` specifies |
| AdminSettings.AdminSettingsPage.UpdatePasswordAction | src/routes/admin/settings/+page.server.ts:66-87 | the store afterwards and the answer are those `UpdatePassword` specifies |

## Left out

- Network and foreign libraries are parameters: Stripe's API and signature check,
  the S3 client and presigned URLs, sharp's decoding and encoding, bcrypt and
  `Bun.password`, JWT minting, `fetch` for the Google avatar, and archiver. For image
  encoding, the S3 upload and URL signing, the parameter also says whether the call
  throws, and with what message. For `stripe.subscriptions.retrieve` it says only
  whether the call throws, because the handler's catch only logs the error.
- Clock and calendar are inputs: the clock is an integer in milliseconds; `setMonth`
  and `setFullYear`, the ISO date keys of the day series, and `Date.now()` in file
  names arrive as functions or values.
- Users.Record: `recordActivity` sets the seven-day expiry with `setDate(getDate() + 7)`,
  a calendar shift in local time. The model adds 7 × 86 400 000 ms, which differs from
  it across a daylight-saving change. `markHistoryPermanent` does add milliseconds, as
  the model does.
- The schema's default role for new users is a parameter, because the schema is not
  part of this model.
- Concurrency: the `Promise.all` over the dashboard's files and the nested
  transactions of activation are sequential and atomic. Per-user locking and
  isolation levels other than the read-committed reading described above are not
  modelled.
- Dashboard.DashboardActions.ProcessAll: the files run one after another and stop at
  the first that throws. Under `Promise.all` the files run together, so the 500 may
  carry the message of another failing file, and files after the one that failed may
  still be stored and charged.
- Dashboard.DashboardActions.Process: the same one-after-another reading, through
  `ProcessAll`.
- Images.Outcome: `metadata()` on a buffer sharp cannot decode throws, which
  `process` passes on. The model's `Codec.detect` always answers (an undetected
  format becomes `jpg`), so this throw is not modelled; the encoding step that
  follows may still throw in the model, with the encoder's own message.
- Images.Outcome: the two URLs are signed one after the other, public first. Under
  `Promise.all` both are signed together, so when both throw the message may be the
  download URL's.
- Floating point: `formatBytes` and the "Saved %" string of the dashboard are not
  modelled.
- `handleRenewal`, `handleExpiry` and `getSubscriptionByStripeId` are called from the
  webhook but defined in no file of this model. The first two are inputs
  (`StripeWebhook.Handlers`): each is the store it leaves behind, and a call that throws
  is one that leaves the store as it was. The lookup is an input too
  (`StripeWebhook.Lookups`). What these methods do to subscriptions and credits is not
  modelled.
- `TIER_LIMITS` and `isFeatureAllowed` come from a constants file that is not part of
  this model, so they are parameters (`Dashboard.Catalogue`).
- `JSON.parse` is opaque. This covers the string branch of `parseFeatures` and the crop
  JSON of the dashboard. The crop, resize, upscale, watermark and metadata options that
  the dashboard assembles are never read by `ImageService.process`, so they are carried
  as opaque values.
- `AdminService` methods outside the gated core are not modelled: `getSystemHealth`,
  `getGlobalActivity`, `listStorageObjects`, `getPricingPlans`, `updatePricingPlan`,
  announcement CRUD and `getTopUsersAnalytics`. Of `deleteStorageObject` only the
  object-store deletion is modelled.
- `PricingService.getPlans`, `getPlanByName`, `getPlanById` and `getUserSubscription`
  are plain lookups, represented by the subscription lookup. `ImageService.generatePresignedUrl`
  is a parameter.
- Thin loaders and UI glue are not modelled: the overview, pricing, storage, activity
  and announcement admin pages; the upgrade, checkout, billing, gallery and history
  loaders; the logout actions; and the cascade deletes the schema performs when an
  account is removed.
- Of the batch-download endpoint, only the request guard and the entry names are
  modelled. Fetching the images and streaming the ZIP are not.
- The unused-import script's glob, file reads and writes, terminal prompt and
  TypeScript language service are inputs. Their results are sequences given to the
  model.
- Auth.RegisterResult: the minimum password length counts characters. JavaScript's
  `length` counts UTF-16 code units, so the two differ outside the Basic Multilingual
  Plane.
- Settings.PasswordFields: the same character-count reading of `length` as in
  registration.
- UnusedImports.ConfirmedAnswers: `toLowerCase` is modelled for ASCII letters only.
- UnusedImports.SortByStartDesc: the order among edits with equal starts is not
  stated. JavaScript's sort is stable; the model makes no promise about ties.
- Settings.CheckPassword: `Bun.password.verify` on a stored hash it cannot read
  throws. The model takes the verification's outcome as an input and does not
  model the throw.
- Ai.Capitalize: only ASCII letters are upper-cased. JavaScript's `toUpperCase` also
  maps other letters and can lengthen the text (`ß` becomes `SS`).
- Subscriptions.SweepOne: a store write that throws after the credits have been expired
  (the status update of the sweep) is not modelled. The model's only failure is
  expiring the credits of a missing user, which leaves the row alone.
- Admin.SortAscending: the store leaves the order of rows with equal `paidAt` or
  `createdAt` unspecified. The model keeps table order for ties, and the contracts
  promise nothing about it.
- UnusedImports.ScriptOf: the script region starts at the body's own position, the
  corrected offset of the Findings table. The code's `indexOf` agrees with it exactly
  when the body's text does not occur earlier in the file
  (`UnusedImports.ScriptStartAsWrittenAgrees`).
- UnusedImports.PlanFile: the new text of a Svelte file is spliced at the corrected
  offset, as for `UnusedImports.ScriptOf`.

## Findings

| source | as written | input that shows it | evidently intended | confidence | as-written member | corrected member |
|---|---|---|---|---|---|---|
| scripts/remove-unused-imports.ts:45 | the script body's offset is `content.indexOf(scriptMatch[1])`, the first place the body's text occurs anywhere in the file | content `a<script>a</script>`: the body `a` is found at 0, while the body starts at 9, so the edited script replaces the file's first character and leaves the tag body unchanged | the offset of the body inside the matched element, just after the opening tag | not executed | UnusedImports.ScriptStartAsWrittenMisplaced | UnusedImports.ScriptRegionIsBody |
