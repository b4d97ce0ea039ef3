/** The session-backed store and the look-then-insert `get_or_create`. */
module Database {
  import opened Models

  /** The user-usage row `get_or_create` yields for `userId`: the stored one,
      or a fresh row built from the filter value. */
  function UserUsageOf(s: Db, userId: int): UserUsage
  {
    if userId in s.userUsages then s.userUsages[userId] else NewUserUsage(userId)
  }

  /** The store after `get_or_create(UserUsage, user_id=userId)` committed. */
  function WithUserUsage(s: Db, userId: int): (r: Db)
    ensures userId in r.userUsages && r.userUsages[userId] == UserUsageOf(s, userId)
    ensures r.userUsages.Keys == s.userUsages.Keys + {userId}
    ensures forall u :: u in s.userUsages ==> r.userUsages[u] == s.userUsages[u]
    ensures r.(userUsages := s.userUsages) == s
  {
    s.(userUsages := s.userUsages[userId := UserUsageOf(s, userId)])
  }

  lemma {:induction false} GetOrCreateFindsOrInserts(s: Db, userId: int)
    ensures userId in s.userUsages ==> WithUserUsage(s, userId) == s
    ensures userId !in s.userUsages ==>
      WithUserUsage(s, userId).userUsages == s.userUsages[userId := NewUserUsage(userId)]
    ensures userId in WithUserUsage(s, userId).userUsages
    ensures forall u :: u in s.userUsages ==>
      u in WithUserUsage(s, userId).userUsages && WithUserUsage(s, userId).userUsages[u] == s.userUsages[u]
  {
    if userId in s.userUsages {
      assert s.userUsages[userId := s.userUsages[userId]] == s.userUsages;
    }
  }

  /** Two calls with the same filter insert at most one row. */
  lemma GetOrCreateTwice(s: Db, userId: int)
    ensures WithUserUsage(WithUserUsage(s, userId), userId) == WithUserUsage(s, userId)
    ensures |WithUserUsage(WithUserUsage(s, userId), userId).userUsages| <= |s.userUsages| + 1
  {
    var once := WithUserUsage(s, userId);
    assert once.userUsages[userId := once.userUsages[userId]] == once.userUsages;
  }

  /** A get-or-create keeps the schema. */
  lemma GetOrCreateKeepsSchema(s: Db, userId: int)
    requires Schema(s)
    ensures Schema(WithUserUsage(s, userId))
  {
  }

  class Store {
    var subscriptions: map<int, Subscription>
    var offers: map<int, Offer>
    var userUsages: map<int, UserUsage>
    var workspaceUsages: map<int, WorkspaceUsage>

    function Snapshot(): Db
      reads this
    {
      Db(subscriptions, offers, userUsages, workspaceUsages)
    }

    ghost predicate Valid()
      reads this
    {
      Schema(Snapshot())
    }

    /** A store holding a catalogue of offers and no other rows. */
    constructor (catalogue: map<int, Offer>)
      requires OffersWellFormed(catalogue)
      ensures Valid()
      ensures Snapshot() == Db(map[], catalogue, map[], map[])
    {
      subscriptions := map[];
      offers := catalogue;
      userUsages := map[];
      workspaceUsages := map[];
    }

    /** Query by user id; insert and commit a new row if none matches. */
    method GetOrCreateUserUsage(userId: int) returns (row: UserUsage, created: bool)
      requires Valid()
      modifies this
      ensures Valid()
      ensures created <==> userId !in old(userUsages)
      ensures !created ==> row == old(userUsages[userId]) && userUsages == old(userUsages)
      ensures created ==> row == NewUserUsage(userId) && userUsages == old(userUsages)[userId := row]
      ensures userId in userUsages && userUsages[userId] == row
      ensures subscriptions == old(subscriptions) && offers == old(offers)
      ensures workspaceUsages == old(workspaceUsages)
      ensures Snapshot() == WithUserUsage(old(Snapshot()), userId)
      ensures row == UserUsageOf(old(Snapshot()), userId)
    {
      if userId in userUsages {
        row, created := userUsages[userId], false;
        assert userUsages[userId := row] == userUsages;
      } else {
        row := NewUserUsage(userId);
        userUsages := userUsages[userId := row];
        created := true;
      }
    }
  }
}
