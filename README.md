# Billing service core in Dafny

This project models the core of a small billing service. The service keeps a
usage ledger for users and their workspaces, reacts to billing events sent by
the system that owns workspaces, documents and files, and keeps subscription
rows in step with a payment provider's webhook events.

The model has five modules, one per source file:

- `Models` (`models.dfy`) holds the rows, the enumerations, the column
  defaults and the table constraints. The store at one moment is a `Db` value
  of four tables, each a map:
  - subscriptions by user id, which is a unique column;
  - workspace usages by workspace id, which is a unique column;
  - offers by primary key;
  - user usages by user id. That column is NOT declared unique. Keying by it
    is a modelling choice, sound because get-or-create is the only inserter
    and requests run one after another (see Left out).

  `Schema` is the invariant every operation keeps. It holds the declared
  constraints:
  - unique user id and unique provider ids per subscription;
  - the offer foreign key;
  - unique offer names;
  - each item belongs to its offer.

  It also holds the widths of the columns the handlers write (`ColumnsFit`),
  as on PostgreSQL. These 32-bit `Integer` columns fit 32 signed bits: the
  subscription's user id, the user's workspace count, and the workspace
  usage's workspace id, document count and storage size count. The
  subscription's two `String(255)` provider ids hold at most 255
  characters. `UserUsage.user_id`, `WorkspaceUsage.creator_user_id` and
  `Subscription.offer_id` are not among them (see Left out). Finally it holds the undeclared one-row-per-user
  invariant of the user-usage table.
- `Database` (`database.dfy`) holds `get_or_create` for user-usage rows. It is
  a method of the class `Store`, whose four fields are the tables; the method
  is proved against the pure `WithUserUsage`.
- `Log` (`log.dfy`) holds the billing-event dispatcher and its six handlers.
  - Each handler is a module-level method that takes the `Store` and declares
    `modifies` on it. Its contract ties the committed store and the outcome to
    a pure specification: the dispatcher's to `BillingStep`, each handler's to
    the step function for its event type.
  - An exception is an outcome. The store after an exception is the last
    commit. The commit inside `get_or_create` survives a later failure in the
    same request.
  - `ApplyBillingEvents` applies a sequence of requests one after another.
- `Stripe` (`stripe.dfy`) holds the webhook dispatcher and its five handlers as
  written, with `WebhookStep` as their specification. It also holds corrected
  handlers, `WebhookStepIntended`, for the three defects listed under Findings.
- `Usage` (`usage.dfy`) holds the two usage-and-limits queries.
  - Each query is a pure function. Its contract says that a result is a row of
    the inner join, and that no result means the join is empty.
  - The user variant is a method because it runs get-or-create first.

### Where the code and the design description differ (the model follows the code)

- `workspace_count` has no floor. The handler adds −1 without any check
  (`app/services/log.py:113`), so the count can go negative
  (`Log.WorkspaceCountCanGoNegative`). Only the document and storage counters
  refuse to go below zero.
- Checkout completion does not check for an existing subscription. A second
  completion for the same user, customer or provider subscription breaks a
  unique constraint when it commits. The request answers 500 and changes
  nothing (`Stripe.CheckoutRedeliveryRefused`).
- `get_or_create` looks first and then inserts, and it commits on its own.
  A billing event that fails later, such as WORKSPACE_DELETED for an unknown
  workspace, still leaves the new user-usage row behind. It does not leave the
  counter change.
- The counters are 32-bit `Integer` columns on PostgreSQL
  (`app/models.py:110`, `app/models.py:133-134`). A commit whose new value
  does not fit fails with a data error. The request answers 500, and the
  session teardown drops the pending change, so the counter keeps its old
  value (`Log.StorageOverflowRefused`). Provider ids longer than their
  `String(255)` columns fail the same way.
- The invoice handlers look the subscription up by primary key, never run the
  query, and change nothing. `subscription.updated` stores the event's id, not
  the subscription's. See Findings.

## Model

| member | source | states |
|---|---|---|
| `Models.ColumnDefaults` | app/models.py:30-134 | A new subscription is inactive with no offer. New usage counters start at 0. An item built without a limit has limit 0. |
| `Database.Store.GetOrCreateUserUsage` | app/database.py:43-51 | Returns the stored row with created=false and changes nothing, or inserts the row built from the user id, with count 0, and returns created=true. Afterwards the row exists. Other tables are unchanged. |
| `Database.WithUserUsage` | app/database.py:43-51 | The store after get-or-create for a user: the user has a row equal to the stored one, or a new zeroed one. The user-usage keys are the old ones plus the user. Every old row and every other table is unchanged. |
| `Database.GetOrCreateFindsOrInserts` | app/database.py:44-51 | Finding a row changes nothing. Otherwise exactly one row is added. The row exists afterwards, and every pre-existing row is unchanged. |
| `Database.GetOrCreateTwice` | app/database.py:44-51 | Two calls with the same filter give the same store as one call, and at most one row is added. |
| `Database.GetOrCreateKeepsSchema` | app/database.py:47-51 | The insert keeps every table constraint. |
| `Log.ParseEventType` | app/services/log.py:7-13 | A type string selects the event type whose tag it equals. No type is selected exactly when the string equals none of the six tags. |
| `Log.TypeTagRoundTrip` | app/services/log.py:7-13 | Each of the six tags selects its own event type. |
| `Log.UserEvent` | app/services/log.py:105-117 | The store a committed user event leaves. The caller's row exists, with its count equal to the old count (0 for a new row) plus the amount. The keys are the old ones plus the caller, and every other row and table is unchanged. |
| `Log.WorkspaceEvent` | app/services/log.py:120-135 | The store and outcome of a workspace counter event. It raises "not found" exactly when the workspace id is null or has no row. Any failure leaves the store unchanged. Only workspace usages can change, and no row is added or removed. |
| `Log.WorkspaceCreatedStep` | app/services/log.py:52-60 | The store and outcome of WORKSPACE_CREATED. Subscriptions and offers never change, and the user-usage keys become the old ones plus the caller. It raises IntegrityError exactly when the workspace id is null or already has a row. Any failure leaves only the get-or-create row. When handled, the workspace usages gain exactly the zeroed row (workspace, caller). |
| `Log.WorkspaceDeletedStep` | app/services/log.py:63-70 | The store and outcome of WORKSPACE_DELETED. Subscriptions and offers never change, and the user-usage keys become the old ones plus the caller. It raises UnmappedInstance exactly when the workspace id is null or has no row. Any failure leaves only the get-or-create row. When handled, the workspace's row is removed. |
| `Log.BillingStep` | app/services/log.py:30-49 | The store and outcome of one billing request. Subscriptions and offers never change. A request that raises leaves the old store, or the old store plus the get-or-create row. |
| `Log.HandleBillingEvent` | app/services/log.py:30-49 | Dispatch: the committed store and outcome are exactly `BillingStep`, and the schema holds afterwards. |
| `Log.WorkspaceCreatedHandler` | app/services/log.py:52-60 | The committed store and outcome are exactly `WorkspaceCreatedStep`. It counts the workspace and inserts its usage row in one commit. On a null or taken workspace id it raises IntegrityError. On a workspace id or a new count outside 32 bits it raises DataError. In both failures only the get-or-create insert remains. |
| `Log.WorkspaceDeletedHandler` | app/services/log.py:63-70 | The committed store and outcome are exactly `WorkspaceDeletedStep`. It un-counts the workspace and deletes its usage row. With no row it raises UnmappedInstance. A count below the 32-bit minimum raises DataError. In both failures only the get-or-create insert remains. |
| `Log.DocumentCreatedHandler` | app/services/log.py:73-78 | Adds 1 to the document counter, as `WorkspaceEvent` specifies. |
| `Log.DocumentDeletedHandler` | app/services/log.py:81-86 | Adds −1 to the document counter, as `WorkspaceEvent` specifies. |
| `Log.StorageCreatedHandler` | app/services/log.py:89-94 | Adds the storage size to the storage counter. An absent size raises a type error once the row is found. A sum above the 32-bit maximum raises DataError and keeps the counter. |
| `Log.StorageDeletedHandler` | app/services/log.py:97-102 | An absent size raises before any lookup and changes nothing. Otherwise it subtracts the size from the storage counter. A negative size that would carry the sum past the 32-bit maximum raises DataError and keeps the counter. |
| `Log.GenericUserEventHandler` | app/services/log.py:105-117 | Runs get-or-create for the caller, whose commit is the whole committed effect. It returns the caller's row with the amount added, pending in the session. Committing that row gives exactly `UserEvent`. |
| `Log.GenericWorkspaceEventHandler` | app/services/log.py:120-135 | A missing row raises "not found" and changes nothing. Otherwise the field becomes current+add when that is ≥ 0 and fits 32 bits. It stays unchanged when that is negative. A sum above the 32-bit maximum raises DataError and changes nothing. |
| `Log.UnknownTypeChangesNothing` | app/services/log.py:38-49 | An event whose type is none of the six is handled and changes nothing. |
| `Log.WorkspaceCreatedEffect` | app/services/log.py:52-60 | If the workspace id or the new count does not fit 32 bits, the request raises DataError and only the get-or-create row remains. Otherwise it is handled. The caller's count goes up by exactly 1, starting from 0 for a new user. The user-usage keys become the old ones plus the caller. The zeroed row (workspace, caller) is added. Other users, subscriptions and offers are unchanged. |
| `Log.WorkspaceDeletedEffect` | app/services/log.py:63-70 | If the new count is below the 32-bit minimum, the request raises DataError and only the get-or-create row remains. Otherwise it is handled. The caller's count goes down by exactly 1, with no floor other than the column's. The user-usage keys become the old ones plus the caller. The workspace's row is removed. Everything else is unchanged. |
| `Log.WorkspaceDeletedWithoutRow` | app/services/log.py:66-69 | Deleting an unknown workspace raises, and the store is the old one plus the get-or-create row. |
| `Log.ScopedEventEffect` | app/services/log.py:120-135 | A document or storage event moves only the named counter of the one workspace, by ±1 or ±size. A would-be-negative result is refused and the store is unchanged. A result above 2147483647 raises DataError and the store is unchanged. A result in 0..2147483647 is written, and every other field, workspace, user row and subscription is unchanged. |
| `Log.ScopedEventWithoutRow` | app/services/log.py:121-126 | A document or storage event for an unknown workspace raises and mutates nothing. |
| `Log.StorageOverflowRefused` | app/services/log.py:129-135 | A storage counter at 2147483000 that receives a storage creation of size 1000 raises DataError, and the store is unchanged. |
| `Log.BillingStepKeepsCountersNonNegative` | app/services/log.py:129-133 | One event keeps every document and storage counter ≥ 0. |
| `Log.BillingEventsKeepCountersNonNegative` | app/services/log.py:129-133 | Any sequence of events keeps every document and storage counter ≥ 0. |
| `Log.BillingStepKeepsSchema` | app/services/log.py:52-70 | Every billing event keeps the table constraints. |
| `Log.WorkspaceCountCanGoNegative` | app/services/log.py:113 | A user with no row who deletes another user's workspace ends at count −1. |
| `Log.WorkspaceCreatedScenario` | app/services/log.py:52-60 | Creating workspace 100 on an empty ledger gives user 7 a count of 1 and a zeroed usage row owned by user 7. |
| `Log.DocumentCountStopsAtZero` | app/services/log.py:129-133 | Three document creations followed by four deletions end at 0, because the fourth deletion is refused. |
| `Stripe.ParseWebhookKind` | app/services/stripe.py:9-13 | An event type selects the handler whose constant it equals. None is selected exactly when it equals none of the five. |
| `Stripe.KindTagRoundTrip` | app/services/stripe.py:9-13 | Each of the five constants selects its own handler. |
| `Stripe.MarkPaid` | app/services/stripe.py:152-153 | The row with status Active. Every other column is kept. |
| `Stripe.MarkPastDue` | app/services/stripe.py:148-149 | The row with status Inactive. Every other column is kept. |
| `Stripe.SignUpCustomer` | app/services/stripe.py:162-169 | A new row with the given user id, offer, provider subscription id and customer id, and the default status Inactive. |
| `Stripe.FindCustomerSignup` | app/services/stripe.py:156-159 | A query filtered on the subscription primary key equal to the given id, with no status assigned. |
| `Stripe.UpdatedSubscription` | app/services/stripe.py:126-130 | The row with the provider subscription id set to the event id, and status Active exactly when the provider status is "active". Offer, user and customer are kept. |
| `Stripe.SubscriptionByCustomer` | app/services/stripe.py:118-124 | Finds the row holding the customer id if there is one. Finds nothing exactly when no row holds it. With unique customer ids, the row found is the only match. |
| `Stripe.CheckoutStep` | app/services/stripe.py:74-85 | A committed checkout keeps the unique and foreign-key constraints and the column widths. |
| `Stripe.UpdateStep` | app/services/stripe.py:116-131 | A committed update keeps the unique constraints and the column widths. |
| `Stripe.DeleteStep` | app/services/stripe.py:134-145 | A deletion keeps the table constraints. |
| `Stripe.WebhookStep` | app/services/stripe.py:33-52 | Every webhook request leaves a store that satisfies the schema. |
| `Stripe.HandleStripeWebhook` | app/services/stripe.py:33-52 | Dispatch: the committed store and the status are exactly `WebhookStep`, and the schema holds afterwards. |
| `Stripe.CompleteStripeSession` | app/services/stripe.py:74-85 | Commits the active row built from the session when the commit is allowed. A missing metadata key raises KeyError. A value too wide for its column raises DataError. A taken id or a missing offer raises IntegrityError. None of the failures changes anything. |
| `Stripe.StripeInvoicePaid` | app/services/stripe.py:88-105 | The lookup is a query on the primary key equal to the invoice's subscription id. A non-first invoice sets Active on that query object. |
| `Stripe.StripeInvoiceFailed` | app/services/stripe.py:108-113 | The lookup is a query on the invoice's subscription id, and Inactive is set on that query object. |
| `Stripe.StripeUpdateSubscription` | app/services/stripe.py:116-131 | The committed store and outcome are exactly `UpdateStep`. |
| `Stripe.StripeDeleteSubscription` | app/services/stripe.py:134-145 | The committed store is exactly `DeleteStep`. |
| `Stripe.WebhookStatus` | app/services/stripe.py:33-52 | A parse failure answers 400 and changes nothing. A parsed event answers 200 or 500, and 200 for an unknown type. A non-200 answer changes nothing. |
| `Stripe.CheckoutEffect` | app/services/stripe.py:162-169 | If the row (offer, user, subscription id, customer id, Active) fits its columns and is insertable, it is added and the answer is 200. Otherwise the answer is 500 and nothing changes. |
| `Stripe.CheckoutRedeliveryRefused` | app/services/stripe.py:82-85 | Redelivering a completed checkout answers 500 and keeps the first row. |
| `Stripe.InvoiceEventsChangeNothing` | app/services/stripe.py:88-113 | Both invoice events, as written, answer 200 and leave the store unchanged. |
| `Stripe.UpdateEffect` | app/services/stripe.py:116-131 | Without a customer row nothing changes. Otherwise only that row changes: its provider subscription id becomes the event id, and its status is active iff the provider says "active". An event id longer than 255 characters, or a clash on that id, answers 500 with no change. |
| `Stripe.DeleteEffect` | app/services/stripe.py:134-145 | Without a customer row nothing changes. Otherwise only that row's status becomes inactive. |
| `Stripe.RedeliveryIdempotent` | app/services/stripe.py:126-149 | Delivering updated, deleted or payment_failed twice gives the same store as delivering it once. |
| `Stripe.CheckoutInvoiceOrderIndependent` | app/services/stripe.py:94-105 | An invoice payment creates nothing, and it changes nothing whether it arrives before or after the checkout. |
| `Stripe.InvoicePaidIntended` | app/services/stripe.py:88-105 | The corrected invoice.paid keeps the table constraints. |
| `Stripe.InvoiceFailedIntended` | app/services/stripe.py:108-113 | The corrected invoice.payment_failed keeps the table constraints. |
| `Stripe.UpdateStepIntended` | app/services/stripe.py:116-131 | The corrected update keeps the table constraints. |
| `Stripe.WebhookStepIntended` | app/services/stripe.py:33-52 | The corrected dispatcher keeps the table constraints. |
| `Stripe.IntendedDiffersOnlyOnRepairedEvents` | app/services/stripe.py:39-49 | On every event type except the three repaired ones, the corrected dispatcher and the code as written agree. |
| `Stripe.RedeliveryIdempotentIntended` | app/services/stripe.py:126-149 | With the corrections, redelivering paid, payment_failed, updated or deleted changes nothing more. |
| `Stripe.InvoicePaidAsWrittenIgnored` | app/services/stripe.py:156-159 | A renewal payment leaves an inactive subscription inactive as written. The corrected handler activates it. |
| `Stripe.InvoicePaidIntendedEffect` | app/services/stripe.py:96-105 | Corrected: a first invoice changes nothing. A later one activates exactly the row holding the subscription id. An unknown id changes nothing. |
| `Stripe.InvoiceFailedAsWrittenIgnored` | app/services/stripe.py:108-113 | A failed payment leaves an active subscription active as written. The corrected handler deactivates it. |
| `Stripe.InvoiceFailedIntendedEffect` | app/services/stripe.py:108-113 | Corrected: exactly the row holding the subscription id becomes inactive, an unknown id changes nothing, and a redelivery changes nothing more. |
| `Stripe.UpdateAsWrittenLosesProviderId` | app/services/stripe.py:126 | After an update, as written, the subscription's real provider id no longer finds its row. With the correction it still does. |
| `Stripe.UpdateIntendedKeepsProviderId` | app/services/stripe.py:126 | Corrected: a committed update leaves the customer's row findable by the subscription object's id. |
| `Stripe.CheckoutInvoiceOrderIndependentIntended` | app/services/stripe.py:94-101 | Corrected: an invoice for a subscription not yet created changes nothing. After the checkout, the invoice changes nothing more, because the row is already active. |
| `Usage.WorkspaceUsageAndLimits` | app/services/usage.py:12-25 | A result is a row of the join workspace usage → creator's subscription → offer. No result means the join is empty. |
| `Usage.UserUsageAndLimits` | app/services/usage.py:38-46 | A result is a row of the join user usage → subscription → offer. No result means the join is empty. |
| `Usage.GetUserUsageAndLimits` | app/services/usage.py:28-50 | Runs get-or-create for the user, then the join. The returned usage is the user's stored row. |
| `Usage.WorkspaceJoinHasOneRow` | app/services/usage.py:14-22 | The workspace join has at most one row, so the first row is the answer. |
| `Usage.QueriesIgnoreStatus` | app/services/usage.py:14-46 | Neither query depends on the subscription status. An inactive subscription still yields its offer. |
| `Usage.NoSubscriptionNoLimits` | app/services/usage.py:14-22 | A workspace whose creator has no subscription yields nothing. |
| `Usage.LimitsBelongToOffer` | app/models.py:87 | Every item of the returned offer belongs to that offer. |

## Left out

- HTTP routing, request validation and JWT handling (`app/main.py`, `app/validation.py`) are not part of this model. The caller's user id and the payload fields arrive as parameters.
- Provider SDK calls (`create_stripe_session`, signature checking in `parse_stripe_event`) are foreign calls. Parsing reaches the model only as its result, an `Option` of the parsed event.
- Print logging is left out. It has no effect on state.
- Concurrency is left out. Requests are applied one after another. Two concurrent first calls of `get_or_create` could insert two user-usage rows for one user, because `UserUsage.user_id` carries no unique constraint. The sequential model keys the table by user id, because get-or-create is the only inserter and one row per user holds when requests run one after another.
- The user-usage constructor assigns `user_id` as a one-element tuple. The model takes the stored value to be the user id itself.
- The offer's floating-point `price` column is not represented. Neither are the surrogate primary keys of subscriptions, items and usage rows. Two filters use them. The invoice lookup on `Subscription.id` (`app/services/stripe.py:157-158`) builds a query that is never executed, so only its filter value is kept. The `UserUsage.id` filter in the user usage query (`app/services/usage.py:39`) selects the row get-or-create just returned, which the model identifies by user id.
- Checkout metadata values are taken as integers. The provider delivers them as strings, which the integer columns convert.
- Among provider payload attributes, only one absence is modelled: a missing `user_id` or `offer_id` metadata key, which raises KeyError. Every other provider object attribute is assumed present. On billing events, an absent workspace id or storage size is modelled.
- Caller user ids are assumed to fit the 32-bit `user_id` column. An out-of-range one would make get-or-create's own insert fail, which is not modelled.
- The offer catalogue's column widths are not checked. Offers are only read.
- The widths of `UserUsage.user_id` and `WorkspaceUsage.creator_user_id` are not in the store invariant. Both hold the caller's user id, which is assumed to fit. `Subscription.offer_id` is not in it either: checkout refuses an out-of-range offer id (`RowFits`), and the foreign key ties it to an existing offer.
- The offer foreign key is modelled as enforced at commit. A store that does not enforce foreign keys would accept a checkout naming a missing offer.
- Session bookkeeping is modelled only through its effect on committed state. Pending changes and autoflush are left out: only what is committed is visible to the next request.
- Stripe.StripeInvoicePaid: it is stated on the query object alone, because as written the handler never reads or writes a row. `Stripe.InvoiceEventsChangeNothing` states the effect on the store.
- Stripe.StripeInvoiceFailed: as for invoice.paid, the contract is on the query object, and the store is unchanged.

## Findings

| source | as written | input that shows it | evidently intended | confidence | as-written member | corrected member |
|---|---|---|---|---|---|---|
| app/services/stripe.py:92-105 | `find_customer_signup` builds a query filtered on the primary key `Subscription.id` and returns it unexecuted. `mark_paid` then sets `status` on the query object, and the commit writes nothing. | A store with user 7's subscription "sub_1" inactive, and invoice.paid for "sub_1" with billing reason "subscription_cycle". The subscription stays inactive. | Find the row whose provider subscription id is the invoice's subscription and, unless this is the first invoice, mark it active. | not executed | `Stripe.InvoicePaidAsWrittenIgnored` | `Stripe.InvoicePaidIntended` |
| app/services/stripe.py:108-113 | Same lookup as invoice.paid. `mark_past_due` sets `status` on the query object, and nothing is committed. | The same store with the subscription active, and invoice.payment_failed for "sub_1". The subscription stays active. | Find the row by provider subscription id, mark it inactive, and commit. | not executed | `Stripe.InvoiceFailedAsWrittenIgnored` | `Stripe.InvoiceFailedIntended` |
| app/services/stripe.py:126 | `stripe_subscription_id` is set to `event['id']`, the event's own id. | customer.subscription.updated with event id "evt_9" for customer "cus_1", whose subscription object id is "sub_2". Afterwards no row holds "sub_2". | Store the subscription object's id, `event['data']['object']['id']`. | not executed | `Stripe.UpdateAsWrittenLosesProviderId` | `Stripe.UpdateStepIntended` |
