/** The payment provider's webhook: a closed set of event types moving a
    subscription between active and inactive, and the checkout completion
    that creates it. Parsing and signature checking of the raw request are a
    foreign call; their result reaches this module as an `Option`. */
module Stripe {
  import opened Models
  import opened Database

  datatype WebhookKind =
    | CheckoutCompleted
    | InvoicePaid
    | InvoiceFailed
    | SubscriptionUpdated
    | SubscriptionDeleted

  function KindTag(k: WebhookKind): string
  {
    match k
    case CheckoutCompleted => "checkout.session.completed"
    case InvoicePaid => "invoice.paid"
    case InvoiceFailed => "invoice.payment_failed"
    case SubscriptionUpdated => "customer.subscription.updated"
    case SubscriptionDeleted => "customer.subscription.deleted"
  }

  /** The handler an event's `type` selects, if any. */
  function ParseWebhookKind(tag: string): (r: Option<WebhookKind>)
    ensures r.Some? ==> KindTag(r.value) == tag
    ensures r.None? ==> forall k :: KindTag(k) != tag
  {
    if tag == "checkout.session.completed" then Some(CheckoutCompleted)
    else if tag == "invoice.paid" then Some(InvoicePaid)
    else if tag == "invoice.payment_failed" then Some(InvoiceFailed)
    else if tag == "customer.subscription.updated" then Some(SubscriptionUpdated)
    else if tag == "customer.subscription.deleted" then Some(SubscriptionDeleted)
    else None
  }

  lemma KindTagRoundTrip(k: WebhookKind)
    ensures ParseWebhookKind(KindTag(k)) == Some(k)
  {
  }

  /** The event's `data.object`: the fields the handlers read. `id` is the
      object's own id (for a subscription object, the provider subscription
      id); `metadata` carries the checkout session's user and offer ids. */
  datatype EventObject = EventObject(
    id: string,
    customer: string,
    subscription: string,
    status: string,
    billingReason: string,
    metadata: map<string, int>)

  /** A parsed provider event; `id` is the event's own id. */
  datatype StripeEvent = StripeEvent(id: string, eventType: string, dataObject: EventObject)

  /** The exceptions a webhook handler can raise. */
  datatype WebhookError =
    | KeyError        // a metadata key the checkout session lacks
    | IntegrityError  // a commit that breaks a unique or foreign-key constraint
    | DataError       // a commit writing a value wider than its column

  datatype Outcome = Handled | Raised(error: WebhookError)

  /** The committed store after one handler, and how it ended. */
  datatype Step = Step(db: Db, outcome: Outcome)

  /** The committed store after one request, and the HTTP status answered. */
  datatype Response = Response(db: Db, status: int)

  // ---------------------------------------------------------------------
  // Rows and lookups

  /** The row marked active; every other column is kept. */
  function MarkPaid(row: Subscription): (r: Subscription)
    ensures r.status == Active
    ensures r.(status := row.status) == row
  {
    row.(status := Active)
  }

  /** The row marked inactive; every other column is kept. */
  function MarkPastDue(row: Subscription): (r: Subscription)
    ensures r.status == Inactive
    ensures r.(status := row.status) == row
  {
    row.(status := Inactive)
  }

  /** A new subscription row with the offer assigned after construction: the
      ids are the arguments, and the status is the column default. */
  function SignUpCustomer(userId: int, offerId: int, customerId: string, subscriptionId: string): (r: Subscription)
    ensures r.userId == userId && r.offerId == Some(offerId)
    ensures r.stripeSubscriptionId == subscriptionId && r.stripeCustomerId == customerId
    ensures r.status == Inactive
  {
    NewSubscription(userId, subscriptionId, customerId).(offerId := Some(offerId))
  }

  /** The row `customer.subscription.updated` writes: the provider
      subscription id becomes the EVENT's id, and the status is active exactly
      when the provider reports "active". */
  function UpdatedSubscription(row: Subscription, eventId: string, providerStatus: string): (r: Subscription)
    ensures r.stripeSubscriptionId == eventId
    ensures r.status == Active <==> providerStatus == "active"
    ensures r.offerId == row.offerId && r.userId == row.userId && r.stripeCustomerId == row.stripeCustomerId
  {
    row.(stripeSubscriptionId := eventId, status := if providerStatus == "active" then Active else Inactive)
  }

  /** The query `find_customer_signup` builds: a filter on the subscription
      primary key that is never executed. `status` is the attribute
      `mark_paid` or `mark_past_due` assigns on the query object itself. */
  datatype SubscriptionQuery = SubscriptionQuery(primaryKey: string, status: Option<SubscriptionStatus>)

  /** The query filters on the given id and carries no status yet. */
  function FindCustomerSignup(subscriptionId: string): (r: SubscriptionQuery)
    ensures r.primaryKey == subscriptionId && r.status.None?
  {
    SubscriptionQuery(subscriptionId, None)
  }

  /** The user id keying the subscription whose provider customer id is
      `customerId`, if any. */
  function SubscriptionByCustomer(s: Db, customerId: string): (r: Option<int>)
    requires Schema(s)
    ensures r.Some? ==> r.value in s.subscriptions && s.subscriptions[r.value].stripeCustomerId == customerId
    ensures r.None? ==> forall u :: u in s.subscriptions ==> s.subscriptions[u].stripeCustomerId != customerId
    ensures forall u :: u in s.subscriptions && s.subscriptions[u].stripeCustomerId == customerId ==> r == Some(u)
  {
    if exists u :: u in s.subscriptions && s.subscriptions[u].stripeCustomerId == customerId then
      Some(var u :| u in s.subscriptions && s.subscriptions[u].stripeCustomerId == customerId; u)
    else
      None
  }

  /** The user id keying the subscription whose provider subscription id is
      `subscriptionId`, if any. */
  function SubscriptionByProviderId(s: Db, subscriptionId: string): (r: Option<int>)
    requires Schema(s)
    ensures r.Some? ==> r.value in s.subscriptions && s.subscriptions[r.value].stripeSubscriptionId == subscriptionId
    ensures r.None? ==> forall u :: u in s.subscriptions ==> s.subscriptions[u].stripeSubscriptionId != subscriptionId
    ensures forall u :: u in s.subscriptions && s.subscriptions[u].stripeSubscriptionId == subscriptionId ==> r == Some(u)
  {
    if exists u :: u in s.subscriptions && s.subscriptions[u].stripeSubscriptionId == subscriptionId then
      Some(var u :| u in s.subscriptions && s.subscriptions[u].stripeSubscriptionId == subscriptionId; u)
    else
      None
  }

  /** Inserting `row` commits: its user id and both provider ids are free and
      its offer exists. */
  predicate Insertable(s: Db, row: Subscription)
  {
    && row.userId !in s.subscriptions
    && (forall u :: u in s.subscriptions ==>
          s.subscriptions[u].stripeSubscriptionId != row.stripeSubscriptionId &&
          s.subscriptions[u].stripeCustomerId != row.stripeCustomerId)
    && (row.offerId.Some? ==> row.offerId.value in s.offers)
  }

  /** Some subscription other than the one keyed by `userId` already holds
      provider subscription id `subscriptionId`. */
  predicate ProviderIdTakenByOther(s: Db, userId: int, subscriptionId: string)
  {
    exists v :: v in s.subscriptions && v != userId && s.subscriptions[v].stripeSubscriptionId == subscriptionId
  }

  // ---------------------------------------------------------------------
  // Specification: the committed store after each handler, as written

  /** The values of `row` fit their columns: 32-bit user and offer ids and
      provider ids of at most 255 characters. */
  predicate RowFits(row: Subscription)
  {
    && FitsInteger(row.userId)
    && (row.offerId.Some? ==> FitsInteger(row.offerId.value))
    && FitsString255(row.stripeSubscriptionId)
    && FitsString255(row.stripeCustomerId)
  }

  /** A new active row from the session's metadata and ids, with no check
      for an existing one. A value too wide for its column fails the insert
      before any constraint is checked. */
  function CheckoutStep(s: Db, e: StripeEvent): (r: Step)
    requires Schema(s)
    ensures Schema(r.db)
  {
    var session := e.dataObject;
    if "user_id" !in session.metadata || "offer_id" !in session.metadata then
      Step(s, Raised(KeyError))
    else
      var row := MarkPaid(SignUpCustomer(session.metadata["user_id"], session.metadata["offer_id"],
                                         session.customer, session.subscription));
      if !RowFits(row) then Step(s, Raised(DataError))
      else if Insertable(s, row) then Step(s.(subscriptions := s.subscriptions[row.userId := row]), Handled)
      else Step(s, Raised(IntegrityError))
  }

  function UpdateStep(s: Db, e: StripeEvent): (r: Step)
    requires Schema(s)
    ensures Schema(r.db)
  {
    match SubscriptionByCustomer(s, e.dataObject.customer)
    case None => Step(s, Handled)
    case Some(u) =>
      if !FitsString255(e.id) then Step(s, Raised(DataError))
      else if ProviderIdTakenByOther(s, u, e.id) then Step(s, Raised(IntegrityError))
      else Step(s.(subscriptions := s.subscriptions[u := UpdatedSubscription(s.subscriptions[u], e.id, e.dataObject.status)]), Handled)
  }

  function DeleteStep(s: Db, e: StripeEvent): (r: Db)
    requires Schema(s)
    ensures Schema(r)
  {
    match SubscriptionByCustomer(s, e.dataObject.customer)
    case None => s
    case Some(u) => s.(subscriptions := s.subscriptions[u := s.subscriptions[u].(status := Inactive)])
  }

  function Answer(step: Step): Response
  {
    Response(step.db, if step.outcome.Handled? then 200 else 500)
  }

  /** One webhook request: `None` is a payload that failed parsing or the
      signature check. An exception escaping a handler is answered 500. */
  function WebhookStep(s: Db, parsed: Option<StripeEvent>): (r: Response)
    requires Schema(s)
    ensures Schema(r.db)
  {
    match parsed
    case None => Response(s, 400)
    case Some(e) =>
      match ParseWebhookKind(e.eventType)
      case None => Response(s, 200)
      case Some(CheckoutCompleted) => Answer(CheckoutStep(s, e))
      case Some(InvoicePaid) => Response(s, 200)
      case Some(InvoiceFailed) => Response(s, 200)
      case Some(SubscriptionUpdated) => Answer(UpdateStep(s, e))
      case Some(SubscriptionDeleted) => Response(DeleteStep(s, e), 200)
  }

  // ---------------------------------------------------------------------
  // Handlers

  method HandleStripeWebhook(db: Store, parsed: Option<StripeEvent>) returns (status: int)
    requires db.Valid()
    modifies db
    ensures db.Valid()
    ensures Response(db.Snapshot(), status) == WebhookStep(old(db.Snapshot()), parsed)
  {
    if parsed.None? {
      status := 400;
      return;
    }
    var e := parsed.value;
    var outcome := Handled;
    var kind := ParseWebhookKind(e.eventType);
    match kind {
      case None =>
      case Some(CheckoutCompleted) =>
        outcome := CompleteStripeSession(db, e);
      case Some(InvoicePaid) =>
        var query := StripeInvoicePaid(e);
      case Some(InvoiceFailed) =>
        var query := StripeInvoiceFailed(e);
      case Some(SubscriptionUpdated) =>
        outcome := StripeUpdateSubscription(db, e);
      case Some(SubscriptionDeleted) =>
        StripeDeleteSubscription(db, e);
    }
    status := if outcome.Handled? then 200 else 500;
  }

  method CompleteStripeSession(db: Store, e: StripeEvent) returns (outcome: Outcome)
    requires db.Valid()
    modifies db
    ensures db.Valid()
    ensures Step(db.Snapshot(), outcome) == CheckoutStep(old(db.Snapshot()), e)
  {
    var session := e.dataObject;
    if "user_id" !in session.metadata || "offer_id" !in session.metadata {
      outcome := Raised(KeyError);
      return;
    }
    var subscription := SignUpCustomer(session.metadata["user_id"], session.metadata["offer_id"],
                                       session.customer, session.subscription);
    subscription := MarkPaid(subscription);
    if !RowFits(subscription) {
      // the insert is refused on a column width and the session rolls back
      outcome := Raised(DataError);
      return;
    }
    if !Insertable(db.Snapshot(), subscription) {
      // the commit is refused and the session rolls back the pending insert
      outcome := Raised(IntegrityError);
      return;
    }
    db.subscriptions := db.subscriptions[subscription.userId := subscription];
    outcome := Handled;
  }

  /** As written: the lookup is a query object filtered on the primary key
      and never executed; marking it paid sets an attribute on that object,
      and the commit has nothing to write. No row is read or changed. */
  method StripeInvoicePaid(e: StripeEvent) returns (query: SubscriptionQuery)
    ensures query.primaryKey == e.dataObject.subscription
    ensures query.status == if e.dataObject.billingReason == "subscription_create" then None else Some(Active)
  {
    query := FindCustomerSignup(e.dataObject.subscription);
    var firstInvoice := e.dataObject.billingReason == "subscription_create";
    if !firstInvoice {
      query := query.(status := Some(Active));
    }
  }

  /** As written: like `StripeInvoicePaid`, the status lands on the query
      object, and nothing is committed. No row is read or changed. */
  method StripeInvoiceFailed(e: StripeEvent) returns (query: SubscriptionQuery)
    ensures query == SubscriptionQuery(e.dataObject.subscription, Some(Inactive))
  {
    query := FindCustomerSignup(e.dataObject.subscription);
    query := query.(status := Some(Inactive));
  }

  method StripeUpdateSubscription(db: Store, e: StripeEvent) returns (outcome: Outcome)
    requires db.Valid()
    modifies db
    ensures db.Valid()
    ensures Step(db.Snapshot(), outcome) == UpdateStep(old(db.Snapshot()), e)
  {
    var found := SubscriptionByCustomer(db.Snapshot(), e.dataObject.customer);
    if found.None? {
      outcome := Handled;
      return;
    }
    var u := found.value;
    var subscription := db.subscriptions[u].(stripeSubscriptionId := e.id);
    if e.dataObject.status == "active" {
      subscription := subscription.(status := Active);
    } else {
      subscription := subscription.(status := Inactive);
    }
    if !FitsString255(e.id) {
      // the commit is refused on the column width of the event id
      outcome := Raised(DataError);
      return;
    }
    if ProviderIdTakenByOther(db.Snapshot(), u, e.id) {
      // the commit is refused on the unique provider subscription id
      outcome := Raised(IntegrityError);
      return;
    }
    db.subscriptions := db.subscriptions[u := subscription];
    outcome := Handled;
  }

  method StripeDeleteSubscription(db: Store, e: StripeEvent)
    requires db.Valid()
    modifies db
    ensures db.Valid()
    ensures db.Snapshot() == DeleteStep(old(db.Snapshot()), e)
  {
    var found := SubscriptionByCustomer(db.Snapshot(), e.dataObject.customer);
    if found.None? {
      return;
    }
    var u := found.value;
    db.subscriptions := db.subscriptions[u := db.subscriptions[u].(status := Inactive)];
  }

  // ---------------------------------------------------------------------
  // Properties of the handlers as written

  /** A payload that fails parsing is refused with 400 and changes nothing;
      a parsed event is never refused, and answers 500 only when the commit
      or a metadata lookup fails, in which case nothing changes. */
  lemma WebhookStatus(s: Db, parsed: Option<StripeEvent>)
    requires Schema(s)
    ensures parsed.None? ==> WebhookStep(s, parsed) == Response(s, 400)
    ensures parsed.Some? ==> WebhookStep(s, parsed).status in {200, 500}
    ensures WebhookStep(s, parsed).status != 200 ==> WebhookStep(s, parsed).db == s
    ensures parsed.Some? && ParseWebhookKind(parsed.value.eventType).None? ==> WebhookStep(s, parsed) == Response(s, 200)
  {
  }

  /** checkout.session.completed adds exactly the row built from the
      session, active, when its ids are free and its offer exists. */
  lemma CheckoutEffect(s: Db, e: StripeEvent, userId: int, offerId: int)
    requires Schema(s)
    requires e.eventType == KindTag(CheckoutCompleted)
    requires "user_id" in e.dataObject.metadata && e.dataObject.metadata["user_id"] == userId
    requires "offer_id" in e.dataObject.metadata && e.dataObject.metadata["offer_id"] == offerId
    ensures var row := Subscription(Some(offerId), userId, e.dataObject.subscription, e.dataObject.customer, Active);
      WebhookStep(s, Some(e)) ==
        if RowFits(row) && Insertable(s, row) then Response(s.(subscriptions := s.subscriptions[userId := row]), 200)
        else Response(s, 500)
  {
    KindTagRoundTrip(CheckoutCompleted);
  }

  /** With no existence check, a redelivered checkout completion is refused
      by the unique user id: the first row stays and the answer is 500. */
  lemma CheckoutRedeliveryRefused(s: Db, e: StripeEvent)
    requires Schema(s)
    requires e.eventType == KindTag(CheckoutCompleted)
    requires WebhookStep(s, Some(e)).status == 200
    ensures WebhookStep(WebhookStep(s, Some(e)).db, Some(e)) == Response(WebhookStep(s, Some(e)).db, 500)
  {
    KindTagRoundTrip(CheckoutCompleted);
  }

  /** Both invoice events, as written, change nothing and answer 200. */
  lemma InvoiceEventsChangeNothing(s: Db, e: StripeEvent)
    requires Schema(s)
    requires e.eventType == KindTag(InvoicePaid) || e.eventType == KindTag(InvoiceFailed)
    ensures WebhookStep(s, Some(e)) == Response(s, 200)
  {
    KindTagRoundTrip(InvoicePaid);
    KindTagRoundTrip(InvoiceFailed);
  }

  /** customer.subscription.updated: with no row for the customer nothing
      changes; otherwise only that row's provider subscription id (set to the
      event id) and status (active iff the provider says "active") change. */
  lemma UpdateEffect(s: Db, e: StripeEvent)
    requires Schema(s)
    requires e.eventType == KindTag(SubscriptionUpdated)
    ensures (forall u :: u in s.subscriptions ==> s.subscriptions[u].stripeCustomerId != e.dataObject.customer) ==>
      WebhookStep(s, Some(e)) == Response(s, 200)
    ensures forall u :: u in s.subscriptions && s.subscriptions[u].stripeCustomerId == e.dataObject.customer ==>
      var row := s.subscriptions[u];
      var after := Subscription(row.offerId, row.userId, e.id, row.stripeCustomerId,
                                if e.dataObject.status == "active" then Active else Inactive);
      WebhookStep(s, Some(e)) ==
        if !FitsString255(e.id) || ProviderIdTakenByOther(s, u, e.id) then Response(s, 500)
        else Response(s.(subscriptions := s.subscriptions[u := after]), 200)
  {
    KindTagRoundTrip(SubscriptionUpdated);
  }

  /** customer.subscription.deleted: with no row for the customer nothing
      changes; otherwise only that row's status becomes inactive. */
  lemma DeleteEffect(s: Db, e: StripeEvent)
    requires Schema(s)
    requires e.eventType == KindTag(SubscriptionDeleted)
    ensures (forall u :: u in s.subscriptions ==> s.subscriptions[u].stripeCustomerId != e.dataObject.customer) ==>
      WebhookStep(s, Some(e)) == Response(s, 200)
    ensures forall u :: u in s.subscriptions && s.subscriptions[u].stripeCustomerId == e.dataObject.customer ==>
      WebhookStep(s, Some(e)) == Response(s.(subscriptions := s.subscriptions[u := s.subscriptions[u].(status := Inactive)]), 200)
  {
    KindTagRoundTrip(SubscriptionDeleted);
  }

  /** Redelivering an updated, deleted or payment-failed event leaves the
      store as the first delivery left it. */
  lemma RedeliveryIdempotent(s: Db, e: StripeEvent)
    requires Schema(s)
    requires e.eventType in {KindTag(SubscriptionUpdated), KindTag(SubscriptionDeleted), KindTag(InvoiceFailed)}
    ensures WebhookStep(WebhookStep(s, Some(e)).db, Some(e)).db == WebhookStep(s, Some(e)).db
  {
    KindTagRoundTrip(SubscriptionUpdated);
    KindTagRoundTrip(SubscriptionDeleted);
    KindTagRoundTrip(InvoiceFailed);
  }

  /** A first-invoice payment and a checkout completion for the same
      provider subscription give the same store in either order, and the
      invoice alone creates nothing. */
  lemma CheckoutInvoiceOrderIndependent(s: Db, checkout: StripeEvent, invoice: StripeEvent)
    requires Schema(s)
    requires checkout.eventType == KindTag(CheckoutCompleted)
    requires invoice.eventType == KindTag(InvoicePaid)
    ensures WebhookStep(s, Some(invoice)).db == s
    ensures WebhookStep(WebhookStep(s, Some(checkout)).db, Some(invoice)).db == WebhookStep(s, Some(checkout)).db
  {
    InvoiceEventsChangeNothing(s, invoice);
    InvoiceEventsChangeNothing(WebhookStep(s, Some(checkout)).db, invoice);
  }

  // ---------------------------------------------------------------------
  // Corrected handlers and the discrepancies they repair

  /** invoice.paid as evidently intended: the row is found by its provider
      subscription id and, unless this is the first invoice, marked paid. */
  function InvoicePaidIntended(s: Db, e: StripeEvent): (r: Db)
    requires Schema(s)
    ensures Schema(r)
  {
    if e.dataObject.billingReason == "subscription_create" then s
    else
      match SubscriptionByProviderId(s, e.dataObject.subscription)
      case None => s
      case Some(u) => s.(subscriptions := s.subscriptions[u := MarkPaid(s.subscriptions[u])])
  }

  /** invoice.payment_failed as evidently intended: the row found by its
      provider subscription id is marked past due, and committed. */
  function InvoiceFailedIntended(s: Db, e: StripeEvent): (r: Db)
    requires Schema(s)
    ensures Schema(r)
  {
    match SubscriptionByProviderId(s, e.dataObject.subscription)
    case None => s
    case Some(u) => s.(subscriptions := s.subscriptions[u := MarkPastDue(s.subscriptions[u])])
  }

  /** customer.subscription.updated as evidently intended: the row takes the
      subscription object's id, not the event's. */
  function UpdateStepIntended(s: Db, e: StripeEvent): (r: Step)
    requires Schema(s)
    ensures Schema(r.db)
  {
    match SubscriptionByCustomer(s, e.dataObject.customer)
    case None => Step(s, Handled)
    case Some(u) =>
      if !FitsString255(e.dataObject.id) then Step(s, Raised(DataError))
      else if ProviderIdTakenByOther(s, u, e.dataObject.id) then Step(s, Raised(IntegrityError))
      else Step(s.(subscriptions := s.subscriptions[u := UpdatedSubscription(s.subscriptions[u], e.dataObject.id, e.dataObject.status)]), Handled)
  }

  /** The webhook request with the three corrected handlers in place; every
      other branch is as written. */
  function WebhookStepIntended(s: Db, parsed: Option<StripeEvent>): (r: Response)
    requires Schema(s)
    ensures Schema(r.db)
  {
    match parsed
    case None => Response(s, 400)
    case Some(e) =>
      match ParseWebhookKind(e.eventType)
      case Some(InvoicePaid) => Response(InvoicePaidIntended(s, e), 200)
      case Some(InvoiceFailed) => Response(InvoiceFailedIntended(s, e), 200)
      case Some(SubscriptionUpdated) => Answer(UpdateStepIntended(s, e))
      case _ => WebhookStep(s, parsed)
  }

  /** The correction touches only the three repaired event types. */
  lemma IntendedDiffersOnlyOnRepairedEvents(s: Db, parsed: Option<StripeEvent>)
    requires Schema(s)
    requires parsed.Some? ==>
      parsed.value.eventType !in {KindTag(InvoicePaid), KindTag(InvoiceFailed), KindTag(SubscriptionUpdated)}
    ensures WebhookStepIntended(s, parsed) == WebhookStep(s, parsed)
  {
    if parsed.Some? {
      var k := ParseWebhookKind(parsed.value.eventType);
      assert k.Some? ==> KindTag(k.value) == parsed.value.eventType;
    }
  }

  /** With the corrections, redelivering any event that changes an existing
      row (paid, payment failed, updated, deleted) leaves the store as the
      first delivery left it. */
  lemma {:induction false} RedeliveryIdempotentIntended(s: Db, e: StripeEvent)
    requires Schema(s)
    requires e.eventType in {KindTag(InvoicePaid), KindTag(InvoiceFailed), KindTag(SubscriptionUpdated), KindTag(SubscriptionDeleted)}
    ensures WebhookStepIntended(WebhookStepIntended(s, Some(e)).db, Some(e)).db == WebhookStepIntended(s, Some(e)).db
  {
    var once := WebhookStepIntended(s, Some(e)).db;
    if e.eventType == KindTag(InvoicePaid) {
      KindTagRoundTrip(InvoicePaid);
      if e.dataObject.billingReason != "subscription_create" {
        match SubscriptionByProviderId(s, e.dataObject.subscription)
        case None =>
        case Some(u) =>
          assert SubscriptionByProviderId(once, e.dataObject.subscription) == Some(u);
          assert once.subscriptions[u := MarkPaid(once.subscriptions[u])] == once.subscriptions;
      }
    } else if e.eventType == KindTag(InvoiceFailed) {
      KindTagRoundTrip(InvoiceFailed);
      InvoiceFailedIntendedEffect(s, e);
    } else if e.eventType == KindTag(SubscriptionUpdated) {
      KindTagRoundTrip(SubscriptionUpdated);
      match SubscriptionByCustomer(s, e.dataObject.customer)
      case None =>
      case Some(u) =>
        if FitsString255(e.dataObject.id) && !ProviderIdTakenByOther(s, u, e.dataObject.id) {
          assert SubscriptionByCustomer(once, e.dataObject.customer) == Some(u);
          assert !ProviderIdTakenByOther(once, u, e.dataObject.id);
          var row := UpdatedSubscription(once.subscriptions[u], e.dataObject.id, e.dataObject.status);
          assert row == once.subscriptions[u];
          assert once.subscriptions[u := row] == once.subscriptions;
        }
    } else {
      KindTagRoundTrip(SubscriptionDeleted);
      RedeliveryIdempotent(s, e);
    }
  }

  /** One subscription, for user 7, provider subscription "sub_1", provider
      customer "cus_1", with the given status. */
  function OneSubscription(status: SubscriptionStatus): Db
  {
    Db(map[7 := Subscription(None, 7, "sub_1", "cus_1", status)], map[], map[], map[])
  }

  /** As written, a renewal payment for an inactive subscription leaves it
      inactive; the corrected handler activates it. */
  lemma InvoicePaidAsWrittenIgnored()
    ensures var e := StripeEvent("evt_1", "invoice.paid", EventObject("in_1", "cus_1", "sub_1", "paid", "subscription_cycle", map[]));
      && WebhookStep(OneSubscription(Inactive), Some(e)).db.subscriptions[7].status == Inactive
      && InvoicePaidIntended(OneSubscription(Inactive), e).subscriptions[7].status == Active
  {
    var e := StripeEvent("evt_1", "invoice.paid", EventObject("in_1", "cus_1", "sub_1", "paid", "subscription_cycle", map[]));
    KindTagRoundTrip(InvoicePaid);
    assert SubscriptionByProviderId(OneSubscription(Inactive), "sub_1") == Some(7);
  }

  /** Corrected invoice.paid: a first invoice changes nothing; a later one
      activates exactly the row holding the invoice's subscription id. */
  lemma InvoicePaidIntendedEffect(s: Db, e: StripeEvent)
    requires Schema(s)
    ensures e.dataObject.billingReason == "subscription_create" ==> InvoicePaidIntended(s, e) == s
    ensures (forall u :: u in s.subscriptions ==> s.subscriptions[u].stripeSubscriptionId != e.dataObject.subscription) ==>
      InvoicePaidIntended(s, e) == s
    ensures e.dataObject.billingReason != "subscription_create" ==>
      forall u :: u in s.subscriptions && s.subscriptions[u].stripeSubscriptionId == e.dataObject.subscription ==>
      InvoicePaidIntended(s, e) == s.(subscriptions := s.subscriptions[u := s.subscriptions[u].(status := Active)])
  {
  }

  /** As written, a failed payment leaves an active subscription active; the
      corrected handler deactivates it. */
  lemma InvoiceFailedAsWrittenIgnored()
    ensures var e := StripeEvent("evt_2", "invoice.payment_failed", EventObject("in_2", "cus_1", "sub_1", "open", "subscription_cycle", map[]));
      && WebhookStep(OneSubscription(Active), Some(e)).db.subscriptions[7].status == Active
      && InvoiceFailedIntended(OneSubscription(Active), e).subscriptions[7].status == Inactive
  {
    var e := StripeEvent("evt_2", "invoice.payment_failed", EventObject("in_2", "cus_1", "sub_1", "open", "subscription_cycle", map[]));
    KindTagRoundTrip(InvoiceFailed);
    assert SubscriptionByProviderId(OneSubscription(Active), "sub_1") == Some(7);
  }

  /** Corrected invoice.payment_failed deactivates exactly the row holding the
      invoice's subscription id, and a redelivery changes nothing more. */
  lemma InvoiceFailedIntendedEffect(s: Db, e: StripeEvent)
    requires Schema(s)
    ensures (forall u :: u in s.subscriptions ==> s.subscriptions[u].stripeSubscriptionId != e.dataObject.subscription) ==>
      InvoiceFailedIntended(s, e) == s
    ensures forall u :: u in s.subscriptions && s.subscriptions[u].stripeSubscriptionId == e.dataObject.subscription ==>
      InvoiceFailedIntended(s, e) == s.(subscriptions := s.subscriptions[u := s.subscriptions[u].(status := Inactive)])
    ensures InvoiceFailedIntended(InvoiceFailedIntended(s, e), e) == InvoiceFailedIntended(s, e)
  {
    var once := InvoiceFailedIntended(s, e);
    match SubscriptionByProviderId(s, e.dataObject.subscription)
    case None =>
    case Some(u) =>
      assert SubscriptionByProviderId(once, e.dataObject.subscription) == Some(u);
      assert once.subscriptions[u := MarkPastDue(once.subscriptions[u])] == once.subscriptions;
  }

  /** As written, an update stores the event id as the provider subscription
      id, so the subscription's real id no longer finds the row; the
      corrected handler keeps it findable. */
  lemma UpdateAsWrittenLosesProviderId()
    ensures var e := StripeEvent("evt_9", "customer.subscription.updated", EventObject("sub_2", "cus_1", "", "active", "", map[]));
      var s := OneSubscription(Inactive);
      && SubscriptionByProviderId(WebhookStep(s, Some(e)).db, "sub_2") == None
      && SubscriptionByProviderId(UpdateStepIntended(s, e).db, "sub_2") == Some(7)
  {
    var e := StripeEvent("evt_9", "customer.subscription.updated", EventObject("sub_2", "cus_1", "", "active", "", map[]));
    var s := OneSubscription(Inactive);
    KindTagRoundTrip(SubscriptionUpdated);
    assert SubscriptionByCustomer(s, "cus_1") == Some(7);
    var after := WebhookStep(s, Some(e)).db;
    assert after.subscriptions[7].stripeSubscriptionId == "evt_9";
  }

  /** Corrected update: when it commits, the row for the customer is found by
      the subscription object's id afterwards. */
  lemma UpdateIntendedKeepsProviderId(s: Db, e: StripeEvent, u: int)
    requires Schema(s)
    requires u in s.subscriptions && s.subscriptions[u].stripeCustomerId == e.dataObject.customer
    requires UpdateStepIntended(s, e).outcome == Handled
    ensures SubscriptionByProviderId(UpdateStepIntended(s, e).db, e.dataObject.id) == Some(u)
  {
    assert SubscriptionByCustomer(s, e.dataObject.customer) == Some(u);
  }

  /** With the corrected invoice handler, a checkout completion and a payment
      of an invoice of the same provider subscription give the same store in
      either order: the invoice arriving first finds nothing and creates
      nothing. */
  lemma CheckoutInvoiceOrderIndependentIntended(s: Db, checkout: StripeEvent, invoice: StripeEvent)
    requires Schema(s)
    requires invoice.dataObject.subscription == checkout.dataObject.subscription
    requires CheckoutStep(s, checkout).outcome == Handled
    ensures InvoicePaidIntended(s, invoice) == s
    ensures InvoicePaidIntended(CheckoutStep(s, checkout).db, invoice) == CheckoutStep(s, checkout).db
  {
    var c := CheckoutStep(s, checkout).db;
    var uid := checkout.dataObject.metadata["user_id"];
    assert SubscriptionByProviderId(s, invoice.dataObject.subscription) == None;
    if invoice.dataObject.billingReason != "subscription_create" {
      assert SubscriptionByProviderId(c, invoice.dataObject.subscription) == Some(uid);
      assert c.subscriptions[uid := MarkPaid(c.subscriptions[uid])] == c.subscriptions;
    }
  }
}
