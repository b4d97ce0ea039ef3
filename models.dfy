/** Rows, enumerations and table constraints of the billing service's schema.

    Every table is held as a map: subscriptions by their unique user id,
    workspace usages by their unique workspace id, offers by their primary
    key, and user usages by user id. The user-usage `user_id` column is not
    declared unique; keying by it relies on get-or-create being the only
    inserter, with requests running one after another (`UserUsagesKeyed`).

    Surrogate primary keys of subscriptions, items and usage rows are not
    represented. Two filters use them: the invoice lookup on the subscription
    id builds a query that is never executed, so only its filter value is
    kept; the user-usage id filter of the usage query selects the row
    get-or-create just returned, which the model identifies by user id. */
module Models {

  /** A nullable column or an optional payload field. */
  datatype Option<T> = None | Some(value: T)

  /** Subscription status: exactly two values. */
  datatype SubscriptionStatus = Active | Inactive

  /** The resource kinds an offer item can limit: exactly three. */
  datatype ResourceKind = Workspace | Document | File

  datatype Subscription = Subscription(
    offerId: Option<int>,
    userId: int,
    stripeSubscriptionId: string,
    stripeCustomerId: string,
    status: SubscriptionStatus)

  datatype OfferItem = OfferItem(
    offerId: int,
    resource: ResourceKind,
    limit: int,
    description: Option<string>)

  /** An offer of the catalogue; its price (a floating-point column) is not modelled. */
  datatype Offer = Offer(
    id: int,
    name: Option<string>,
    stripePriceId: Option<string>,
    isDefault: bool,
    items: seq<OfferItem>)

  datatype UserUsage = UserUsage(userId: int, workspaceCount: int)

  datatype WorkspaceUsage = WorkspaceUsage(
    workspaceId: int,
    creatorUserId: int,
    documentCount: int,
    storageSizeCount: int)

  // Rows as the constructors build them once inserted: an attribute the
  // constructor leaves unset (or sets to None) takes its column default.

  /** The constructor sets only the user id and the two provider ids. */
  function NewSubscription(userId: int, stripeSubscriptionId: string, stripeCustomerId: string): Subscription
  {
    Subscription(None, userId, stripeSubscriptionId, stripeCustomerId, Inactive)
  }

  function NewUserUsage(userId: int): UserUsage
  {
    UserUsage(userId, 0)
  }

  function NewWorkspaceUsage(workspaceId: int, creatorUserId: int): WorkspaceUsage
  {
    WorkspaceUsage(workspaceId, creatorUserId, 0, 0)
  }

  function NewOfferItem(offerId: int, resource: ResourceKind, limit: Option<int>, description: Option<string>): OfferItem
  {
    OfferItem(offerId, resource, if limit.Some? then limit.value else 0, description)
  }

  lemma ColumnDefaults(userId: int, workspaceId: int, subscriptionId: string, customerId: string,
                       offerId: int, resource: ResourceKind)
    ensures NewSubscription(userId, subscriptionId, customerId).status == Inactive
    ensures NewSubscription(userId, subscriptionId, customerId).offerId == None
    ensures NewUserUsage(userId).workspaceCount == 0
    ensures NewWorkspaceUsage(workspaceId, userId).documentCount == 0
    ensures NewWorkspaceUsage(workspaceId, userId).storageSizeCount == 0
    ensures NewOfferItem(offerId, resource, None, None).limit == 0
  {
  }

  /** The whole store at one moment. */
  datatype Db = Db(
    subscriptions: map<int, Subscription>,
    offers: map<int, Offer>,
    userUsages: map<int, UserUsage>,
    workspaceUsages: map<int, WorkspaceUsage>)

  /** Subscription.user_id is unique and non-null: it keys the table. */
  ghost predicate SubscriptionsKeyed(subs: map<int, Subscription>)
  {
    forall u :: u in subs ==> subs[u].userId == u
  }

  /** Subscription.stripe_subscription_id and stripe_customer_id are unique. */
  ghost predicate ProviderIdsUnique(subs: map<int, Subscription>)
  {
    forall u, v :: u in subs && v in subs && u != v ==>
      subs[u].stripeSubscriptionId != subs[v].stripeSubscriptionId &&
      subs[u].stripeCustomerId != subs[v].stripeCustomerId
  }

  /** Subscription.offer_id, when set, references an existing offer. */
  ghost predicate OfferReferencesExist(subs: map<int, Subscription>, offers: map<int, Offer>)
  {
    forall u :: u in subs && subs[u].offerId.Some? ==> subs[u].offerId.value in offers
  }

  /** Offers are keyed by id, names are unique when present, and every item
      belongs to the offer that lists it. */
  ghost predicate OffersWellFormed(offers: map<int, Offer>)
  {
    && (forall o :: o in offers ==> offers[o].id == o)
    && (forall o, p :: o in offers && p in offers && o != p && offers[o].name.Some? ==>
          offers[o].name != offers[p].name)
    && (forall o, i :: o in offers && 0 <= i < |offers[o].items| ==> offers[o].items[i].offerId == o)
  }

  /** One row per user: not a declared constraint (UserUsage.user_id is not
      unique), but an invariant of sequential get-or-create. */
  ghost predicate UserUsagesKeyed(rows: map<int, UserUsage>)
  {
    forall u :: u in rows ==> rows[u].userId == u
  }

  /** WorkspaceUsage.workspace_id is unique and non-null: it keys the table. */
  ghost predicate WorkspaceUsagesKeyed(rows: map<int, WorkspaceUsage>)
  {
    forall w :: w in rows ==> rows[w].workspaceId == w
  }

  // Column widths: `Integer` is a 32-bit signed column and `String(255)` holds
  // at most 255 characters; a commit writing anything wider fails.

  const IntegerMin: int := -0x8000_0000
  const IntegerMax: int := 0x7fff_ffff

  predicate FitsInteger(v: int)
  {
    IntegerMin <= v <= IntegerMax
  }

  predicate FitsString255(v: string)
  {
    |v| <= 255
  }

  /** The columns the handlers write fit their widths: the subscription's
      user id and provider ids, the user's workspace count, and the
      workspace usage's id and counters. The user-usage user id, the
      creator's user id and the subscription's offer id are not constrained
      here; the caller's user id is assumed to fit, and an offer id is
      checked on insert by `RowFits` and the foreign key. */
  ghost predicate ColumnsFit(s: Db)
  {
    && (forall u :: u in s.subscriptions ==>
          && FitsInteger(s.subscriptions[u].userId)
          && FitsString255(s.subscriptions[u].stripeSubscriptionId)
          && FitsString255(s.subscriptions[u].stripeCustomerId))
    && (forall u :: u in s.userUsages ==> FitsInteger(s.userUsages[u].workspaceCount))
    && (forall w :: w in s.workspaceUsages ==>
          && FitsInteger(s.workspaceUsages[w].workspaceId)
          && FitsInteger(s.workspaceUsages[w].documentCount)
          && FitsInteger(s.workspaceUsages[w].storageSizeCount))
  }

  /** The constraints the schema declares, the column widths, and one
      invariant the schema does not declare: at most one user-usage row per
      user (`UserUsagesKeyed`), which holds because get-or-create is the only
      inserter and requests run one after another. */
  ghost predicate Schema(s: Db)
  {
    && SubscriptionsKeyed(s.subscriptions)
    && ProviderIdsUnique(s.subscriptions)
    && OfferReferencesExist(s.subscriptions, s.offers)
    && OffersWellFormed(s.offers)
    && UserUsagesKeyed(s.userUsages)
    && WorkspaceUsagesKeyed(s.workspaceUsages)
    && ColumnsFit(s)
  }

  /** `row` is one of the rows of table `m`. */
  ghost predicate Stored<V>(m: map<int, V>, row: V)
  {
    exists k :: k in m && m[k] == row
  }

  // In a keyed table a row is stored exactly when it sits under its own key.

  lemma SubscriptionsByKey(subs: map<int, Subscription>)
    requires SubscriptionsKeyed(subs)
    ensures forall sub :: Stored(subs, sub) <==> sub.userId in subs && subs[sub.userId] == sub
  {
    forall sub | Stored(subs, sub) ensures sub.userId in subs && subs[sub.userId] == sub {
      var k :| k in subs && subs[k] == sub;
    }
  }

  lemma OffersByKey(offers: map<int, Offer>)
    requires OffersWellFormed(offers)
    ensures forall offer :: Stored(offers, offer) <==> offer.id in offers && offers[offer.id] == offer
  {
    forall offer | Stored(offers, offer) ensures offer.id in offers && offers[offer.id] == offer {
      var k :| k in offers && offers[k] == offer;
    }
  }

  lemma UserUsagesByKey(rows: map<int, UserUsage>)
    requires UserUsagesKeyed(rows)
    ensures forall row :: Stored(rows, row) <==> row.userId in rows && rows[row.userId] == row
  {
    forall row | Stored(rows, row) ensures row.userId in rows && rows[row.userId] == row {
      var k :| k in rows && rows[k] == row;
    }
  }

  lemma WorkspaceUsagesByKey(rows: map<int, WorkspaceUsage>)
    requires WorkspaceUsagesKeyed(rows)
    ensures forall row :: Stored(rows, row) <==> row.workspaceId in rows && rows[row.workspaceId] == row
  {
    forall row | Stored(rows, row) ensures row.workspaceId in rows && rows[row.workspaceId] == row {
      var k :| k in rows && rows[k] == row;
    }
  }
}
