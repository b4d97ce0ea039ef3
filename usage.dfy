/** The read path: a usage row joined with the offer of its user's
    subscription. Each query is an inner join, usage row -> subscription (on
    user id) -> offer; the first joined row, or none, is the answer. */
module Usage {
  import opened Models
  import opened Database

  /** (usage, offer) is a row of the workspace join filtered on `workspaceId`. */
  ghost predicate InWorkspaceJoin(s: Db, workspaceId: int, usage: WorkspaceUsage, offer: Offer)
  {
    && Stored(s.workspaceUsages, usage) && usage.workspaceId == workspaceId
    && Stored(s.offers, offer)
    && exists sub :: Stored(s.subscriptions, sub) && sub.userId == usage.creatorUserId && sub.offerId == Some(offer.id)
  }

  /** (usage, offer) is a row of the user join filtered on `userId`. */
  ghost predicate InUserJoin(s: Db, userId: int, usage: UserUsage, offer: Offer)
  {
    && Stored(s.userUsages, usage) && usage.userId == userId
    && Stored(s.offers, offer)
    && exists sub :: Stored(s.subscriptions, sub) && sub.userId == usage.userId && sub.offerId == Some(offer.id)
  }

  /** The workspace's usage and the offer of its creator's subscription, or
      nothing when the join is empty. */
  function WorkspaceUsageAndLimits(s: Db, workspaceId: int): (r: Option<(WorkspaceUsage, Offer)>)
    requires Schema(s)
    ensures r.Some? ==> InWorkspaceJoin(s, workspaceId, r.value.0, r.value.1)
    ensures r.None? ==> forall usage, offer :: !InWorkspaceJoin(s, workspaceId, usage, offer)
  {
    WorkspaceUsagesByKey(s.workspaceUsages);
    SubscriptionsByKey(s.subscriptions);
    OffersByKey(s.offers);
    if workspaceId !in s.workspaceUsages then None
    else
      var usage := s.workspaceUsages[workspaceId];
      if usage.creatorUserId !in s.subscriptions then None
      else
        var sub := s.subscriptions[usage.creatorUserId];
        if sub.offerId.None? then None
        else
          var offer := s.offers[sub.offerId.value];
          assert offer.id == sub.offerId.value && Stored(s.offers, offer);
          assert Stored(s.subscriptions, sub) && sub.offerId == Some(offer.id);
          Some((usage, offer))
  }

  /** The user's usage and the offer of the user's subscription, or nothing
      when the join is empty. */
  function UserUsageAndLimits(s: Db, userId: int): (r: Option<(UserUsage, Offer)>)
    requires Schema(s)
    ensures r.Some? ==> InUserJoin(s, userId, r.value.0, r.value.1)
    ensures r.None? ==> forall usage, offer :: !InUserJoin(s, userId, usage, offer)
  {
    UserUsagesByKey(s.userUsages);
    SubscriptionsByKey(s.subscriptions);
    OffersByKey(s.offers);
    if userId !in s.userUsages || userId !in s.subscriptions then None
    else
      var sub := s.subscriptions[userId];
      if sub.offerId.None? then None
      else
        var offer := s.offers[sub.offerId.value];
        assert offer.id == sub.offerId.value && Stored(s.offers, offer);
        assert Stored(s.subscriptions, sub) && sub.offerId == Some(offer.id);
        Some((s.userUsages[userId], offer))
  }

  /** get-or-create the caller's usage row, then join it. */
  method GetUserUsageAndLimits(db: Store, userId: int) returns (r: Option<(UserUsage, Offer)>)
    requires db.Valid()
    modifies db
    ensures db.Valid()
    ensures db.Snapshot() == WithUserUsage(old(db.Snapshot()), userId)
    ensures userId in db.userUsages
    ensures r == UserUsageAndLimits(db.Snapshot(), userId)
    ensures r.Some? ==> r.value.0 == db.userUsages[userId]
  {
    var usage, created := db.GetOrCreateUserUsage(userId);
    // A created row was already added and committed by get-or-create.
    r := UserUsageAndLimits(db.Snapshot(), userId);
  }

  /** The join has at most one row, so the first row is the only one. */
  lemma WorkspaceJoinHasOneRow(s: Db, workspaceId: int, u1: WorkspaceUsage, o1: Offer, u2: WorkspaceUsage, o2: Offer)
    requires Schema(s)
    requires InWorkspaceJoin(s, workspaceId, u1, o1) && InWorkspaceJoin(s, workspaceId, u2, o2)
    ensures u1 == u2 && o1 == o2
  {
    WorkspaceUsagesByKey(s.workspaceUsages);
    SubscriptionsByKey(s.subscriptions);
    OffersByKey(s.offers);
    var sub1 :| Stored(s.subscriptions, sub1) && sub1.userId == u1.creatorUserId && sub1.offerId == Some(o1.id);
    var sub2 :| Stored(s.subscriptions, sub2) && sub2.userId == u2.creatorUserId && sub2.offerId == Some(o2.id);
  }

  /** Neither query looks at the subscription's status: an inactive
      subscription still yields its offer. */
  lemma QueriesIgnoreStatus(s: Db, userId: int, status: SubscriptionStatus, workspaceId: int)
    requires Schema(s)
    requires userId in s.subscriptions
    ensures var s' := s.(subscriptions := s.subscriptions[userId := s.subscriptions[userId].(status := status)]);
      && Schema(s')
      && WorkspaceUsageAndLimits(s', workspaceId) == WorkspaceUsageAndLimits(s, workspaceId)
      && UserUsageAndLimits(s', userId) == UserUsageAndLimits(s, userId)
  {
  }

  /** A workspace whose creator has no subscription yields nothing. */
  lemma NoSubscriptionNoLimits(s: Db, workspaceId: int)
    requires Schema(s)
    requires workspaceId in s.workspaceUsages
    requires s.workspaceUsages[workspaceId].creatorUserId !in s.subscriptions
    ensures WorkspaceUsageAndLimits(s, workspaceId) == None
  {
  }

  /** The offer a query returns lists only items that belong to it. */
  lemma LimitsBelongToOffer(s: Db, workspaceId: int)
    requires Schema(s)
    requires WorkspaceUsageAndLimits(s, workspaceId).Some?
    ensures var offer := WorkspaceUsageAndLimits(s, workspaceId).value.1;
      forall i :: 0 <= i < |offer.items| ==> offer.items[i].offerId == offer.id
  {
    OffersByKey(s.offers);
  }
}
