/** The usage ledger: billing events from the resource-owning system mapped
    onto the per-user workspace counter and the per-workspace document and
    storage counters. */
module Log {
  import opened Models
  import opened Database

  datatype BillingEventType =
    | WorkspaceDocumentCreated
    | WorkspaceDocumentDeleted
    | WorkspaceStorageCreated
    | WorkspaceStorageDeleted
    | WorkspaceCreated
    | WorkspaceDeleted

  /** The string each event type compares equal to. */
  function TypeTag(t: BillingEventType): string
  {
    match t
    case WorkspaceDocumentCreated => "WORKSPACE_DOCUMENT_CREATED"
    case WorkspaceDocumentDeleted => "WORKSPACE_DOCUMENT_DELETED"
    case WorkspaceStorageCreated => "WORKSPACE_STORAGE_CREATED"
    case WorkspaceStorageDeleted => "WORKSPACE_STORAGE_DELETED"
    case WorkspaceCreated => "WORKSPACE_CREATED"
    case WorkspaceDeleted => "WORKSPACE_DELETED"
  }

  /** The event type a payload's `type` string selects, if any. */
  function ParseEventType(tag: string): (r: Option<BillingEventType>)
    ensures r.Some? ==> TypeTag(r.value) == tag
    ensures r.None? ==> forall t :: TypeTag(t) != tag
  {
    if tag == "WORKSPACE_CREATED" then Some(WorkspaceCreated)
    else if tag == "WORKSPACE_DELETED" then Some(WorkspaceDeleted)
    else if tag == "WORKSPACE_DOCUMENT_CREATED" then Some(WorkspaceDocumentCreated)
    else if tag == "WORKSPACE_DOCUMENT_DELETED" then Some(WorkspaceDocumentDeleted)
    else if tag == "WORKSPACE_STORAGE_CREATED" then Some(WorkspaceStorageCreated)
    else if tag == "WORKSPACE_STORAGE_DELETED" then Some(WorkspaceStorageDeleted)
    else None
  }

  lemma TypeTagRoundTrip(t: BillingEventType)
    ensures ParseEventType(TypeTag(t)) == Some(t)
  {
  }

  /** A billing event: the payload's `type`, `workspaceId` and `storageSize`
      (the last two may be absent) and the caller's user id. */
  datatype BillingEvent = BillingEvent(
    eventType: string,
    userId: int,
    workspaceId: Option<int>,
    storageSize: Option<int>)

  /** The exceptions a billing event can raise. */
  datatype BillingError =
    | WorkspaceUsageNotFound  // raised explicitly when no workspace usage matches
    | TypeError               // arithmetic on an absent storage size
    | UnmappedInstance        // deleting the None a missing workspace usage yields
    | IntegrityError          // inserting a workspace usage with a null or taken workspace id
    | DataError               // committing a value outside a 32-bit integer column

  datatype Outcome = Handled | Raised(error: BillingError)

  /** The committed store after one event, and how the handler ended. */
  datatype Step = Step(db: Db, outcome: Outcome)

  /** The two counters of a workspace usage an event can move. */
  datatype Counter = DocumentCount | StorageSizeCount

  function CounterOf(row: WorkspaceUsage, field: Counter): int
  {
    match field
    case DocumentCount => row.documentCount
    case StorageSizeCount => row.storageSizeCount
  }

  function WithCounter(row: WorkspaceUsage, field: Counter, value: int): WorkspaceUsage
  {
    match field
    case DocumentCount => row.(documentCount := value)
    case StorageSizeCount => row.(storageSizeCount := value)
  }

  // ---------------------------------------------------------------------
  // Specification: the committed store after each handler

  /** get-or-create the caller's usage row, then add to its workspace count
      with no floor. */
  function UserEvent(s: Db, userId: int, add: int): (r: Db)
    ensures userId in r.userUsages
    ensures r.userUsages[userId].workspaceCount == UserUsageOf(s, userId).workspaceCount + add
    ensures r.userUsages[userId].userId == UserUsageOf(s, userId).userId
    ensures r.userUsages.Keys == s.userUsages.Keys + {userId}
    ensures forall u :: u in s.userUsages && u != userId ==> r.userUsages[u] == s.userUsages[u]
    ensures r.(userUsages := s.userUsages) == s
  {
    var row := UserUsageOf(s, userId);
    s.(userUsages := s.userUsages[userId := row.(workspaceCount := row.workspaceCount + add)])
  }

  /** Add to one counter of the workspace's usage row, unless the sum would
      be negative; a sum too wide for the column fails the commit. `add ==
      None` stands for an absent storage size. Only the workspace usages can
      change, a failure changes nothing, and no row appears or disappears. */
  function WorkspaceEvent(s: Db, workspaceId: Option<int>, field: Counter, add: Option<int>): (r: Step)
    ensures r.outcome.Raised? ==> r.db == s
    ensures r.outcome == Raised(WorkspaceUsageNotFound) <==>
      workspaceId.None? || workspaceId.value !in s.workspaceUsages
    ensures r.db.(workspaceUsages := s.workspaceUsages) == s
    ensures r.db.workspaceUsages.Keys == s.workspaceUsages.Keys
  {
    if workspaceId.None? || workspaceId.value !in s.workspaceUsages then
      Step(s, Raised(WorkspaceUsageNotFound))
    else if add.None? then
      Step(s, Raised(TypeError))
    else
      var w := workspaceId.value;
      var next := CounterOf(s.workspaceUsages[w], field) + add.value;
      if next < 0 then Step(s, Handled)
      else if !FitsInteger(next) then Step(s, Raised(DataError))
      else Step(s.(workspaceUsages := s.workspaceUsages[w := WithCounter(s.workspaceUsages[w], field, next)]), Handled)
  }

  /** The user's count goes up and a usage row for the workspace is inserted,
      in one commit; if that commit fails, only get-or-create's own commit
      survives. When both a constraint and a column width are broken, which
      error the database reports first is not modelled: the store is the same. */
  function WorkspaceCreatedStep(s: Db, e: BillingEvent): (r: Step)
    ensures r.db.subscriptions == s.subscriptions && r.db.offers == s.offers
    ensures r.db.userUsages.Keys == s.userUsages.Keys + {e.userId}
    ensures r.outcome.Raised? ==> r.db == WithUserUsage(s, e.userId)
    ensures r.outcome == Raised(IntegrityError) <==>
      e.workspaceId.None? || e.workspaceId.value in s.workspaceUsages
    ensures r.outcome == Handled ==>
      r.db.workspaceUsages == s.workspaceUsages[e.workspaceId.value := NewWorkspaceUsage(e.workspaceId.value, e.userId)]
  {
    if e.workspaceId.None? || e.workspaceId.value in s.workspaceUsages then
      Step(WithUserUsage(s, e.userId), Raised(IntegrityError))
    else if !FitsInteger(e.workspaceId.value) || !FitsInteger(UserUsageOf(s, e.userId).workspaceCount + 1) then
      Step(WithUserUsage(s, e.userId), Raised(DataError))
    else
      var w := e.workspaceId.value;
      var counted := UserEvent(s, e.userId, 1);
      Step(counted.(workspaceUsages := counted.workspaceUsages[w := NewWorkspaceUsage(w, e.userId)]), Handled)
  }

  /** The user's count goes down and the workspace's usage row is deleted;
      if there is no such row, only get-or-create's own commit survives. */
  function WorkspaceDeletedStep(s: Db, e: BillingEvent): (r: Step)
    ensures r.db.subscriptions == s.subscriptions && r.db.offers == s.offers
    ensures r.db.userUsages.Keys == s.userUsages.Keys + {e.userId}
    ensures r.outcome.Raised? ==> r.db == WithUserUsage(s, e.userId)
    ensures r.outcome == Raised(UnmappedInstance) <==>
      e.workspaceId.None? || e.workspaceId.value !in s.workspaceUsages
    ensures r.outcome == Handled ==> r.db.workspaceUsages == s.workspaceUsages - {e.workspaceId.value}
  {
    if e.workspaceId.None? || e.workspaceId.value !in s.workspaceUsages then
      Step(WithUserUsage(s, e.userId), Raised(UnmappedInstance))
    else if !FitsInteger(UserUsageOf(s, e.userId).workspaceCount - 1) then
      Step(WithUserUsage(s, e.userId), Raised(DataError))
    else
      var counted := UserEvent(s, e.userId, -1);
      Step(counted.(workspaceUsages := counted.workspaceUsages - {e.workspaceId.value}), Handled)
  }

  /** One billing request. It never touches subscriptions or offers, and a
      request that raises leaves at most get-or-create's row behind. */
  function BillingStep(s: Db, e: BillingEvent): (r: Step)
    ensures r.db.subscriptions == s.subscriptions && r.db.offers == s.offers
    ensures r.outcome.Raised? ==> r.db == s || r.db == WithUserUsage(s, e.userId)
  {
    match ParseEventType(e.eventType)
    case None => Step(s, Handled)
    case Some(WorkspaceCreated) => WorkspaceCreatedStep(s, e)
    case Some(WorkspaceDeleted) => WorkspaceDeletedStep(s, e)
    case Some(WorkspaceDocumentCreated) => WorkspaceEvent(s, e.workspaceId, DocumentCount, Some(1))
    case Some(WorkspaceDocumentDeleted) => WorkspaceEvent(s, e.workspaceId, DocumentCount, Some(-1))
    case Some(WorkspaceStorageCreated) => WorkspaceEvent(s, e.workspaceId, StorageSizeCount, e.storageSize)
    case Some(WorkspaceStorageDeleted) =>
      if e.storageSize.None? then Step(s, Raised(TypeError))
      else WorkspaceEvent(s, e.workspaceId, StorageSizeCount, Some(-e.storageSize.value))
  }

  /** Events handled one request after another; a request that raises leaves
      the store at its last commit and the next request goes on from there. */
  function ApplyBillingEvents(s: Db, events: seq<BillingEvent>): Db
    decreases |events|
  {
    if events == [] then s
    else ApplyBillingEvents(BillingStep(s, events[0]).db, events[1..])
  }

  // ---------------------------------------------------------------------
  // Handlers

  method HandleBillingEvent(db: Store, e: BillingEvent) returns (outcome: Outcome)
    requires db.Valid()
    modifies db
    ensures db.Valid()
    ensures Step(db.Snapshot(), outcome) == BillingStep(old(db.Snapshot()), e)
  {
    var kind := ParseEventType(e.eventType);
    match kind
    case None =>
      outcome := Handled;
    case Some(WorkspaceCreated) =>
      outcome := WorkspaceCreatedHandler(db, e);
    case Some(WorkspaceDeleted) =>
      outcome := WorkspaceDeletedHandler(db, e);
    case Some(WorkspaceDocumentCreated) =>
      outcome := DocumentCreatedHandler(db, e);
    case Some(WorkspaceDocumentDeleted) =>
      outcome := DocumentDeletedHandler(db, e);
    case Some(WorkspaceStorageCreated) =>
      outcome := StorageCreatedHandler(db, e);
    case Some(WorkspaceStorageDeleted) =>
      outcome := StorageDeletedHandler(db, e);
  }

  method WorkspaceCreatedHandler(db: Store, e: BillingEvent) returns (outcome: Outcome)
    requires db.Valid()
    modifies db
    ensures db.Valid()
    ensures Step(db.Snapshot(), outcome) == WorkspaceCreatedStep(old(db.Snapshot()), e)
  {
    var pending := GenericUserEventHandler(db, e.userId, 1);
    // The commit writes the pending count and the new row together; when it
    // fails the session drops both, and the row get-or-create committed stays.
    if e.workspaceId.None? || e.workspaceId.value in db.workspaceUsages {
      outcome := Raised(IntegrityError);
      return;
    }
    var w := e.workspaceId.value;
    if !FitsInteger(w) || !FitsInteger(pending.workspaceCount) {
      outcome := Raised(DataError);
      return;
    }
    db.userUsages := db.userUsages[e.userId := pending];
    db.workspaceUsages := db.workspaceUsages[w := NewWorkspaceUsage(w, e.userId)];
    outcome := Handled;
  }

  method WorkspaceDeletedHandler(db: Store, e: BillingEvent) returns (outcome: Outcome)
    requires db.Valid()
    modifies db
    ensures db.Valid()
    ensures Step(db.Snapshot(), outcome) == WorkspaceDeletedStep(old(db.Snapshot()), e)
  {
    var pending := GenericUserEventHandler(db, e.userId, -1);
    if e.workspaceId.None? || e.workspaceId.value !in db.workspaceUsages {
      // Deleting the missing row raises before the commit: the pending
      // decrement is dropped.
      outcome := Raised(UnmappedInstance);
      return;
    }
    if !FitsInteger(pending.workspaceCount) {
      outcome := Raised(DataError);
      return;
    }
    db.userUsages := db.userUsages[e.userId := pending];
    db.workspaceUsages := db.workspaceUsages - {e.workspaceId.value};
    outcome := Handled;
  }

  method DocumentCreatedHandler(db: Store, e: BillingEvent) returns (outcome: Outcome)
    requires db.Valid()
    modifies db
    ensures db.Valid()
    ensures Step(db.Snapshot(), outcome) == WorkspaceEvent(old(db.Snapshot()), e.workspaceId, DocumentCount, Some(1))
  {
    outcome := GenericWorkspaceEventHandler(db, e.workspaceId, DocumentCount, Some(1));
  }

  method DocumentDeletedHandler(db: Store, e: BillingEvent) returns (outcome: Outcome)
    requires db.Valid()
    modifies db
    ensures db.Valid()
    ensures Step(db.Snapshot(), outcome) == WorkspaceEvent(old(db.Snapshot()), e.workspaceId, DocumentCount, Some(-1))
  {
    outcome := GenericWorkspaceEventHandler(db, e.workspaceId, DocumentCount, Some(-1));
  }

  method StorageCreatedHandler(db: Store, e: BillingEvent) returns (outcome: Outcome)
    requires db.Valid()
    modifies db
    ensures db.Valid()
    ensures Step(db.Snapshot(), outcome) == WorkspaceEvent(old(db.Snapshot()), e.workspaceId, StorageSizeCount, e.storageSize)
  {
    outcome := GenericWorkspaceEventHandler(db, e.workspaceId, StorageSizeCount, e.storageSize);
  }

  method StorageDeletedHandler(db: Store, e: BillingEvent) returns (outcome: Outcome)
    requires db.Valid()
    modifies db
    ensures db.Valid()
    ensures e.storageSize.None? ==> outcome == Raised(TypeError) && db.Snapshot() == old(db.Snapshot())
    ensures e.storageSize.Some? ==>
      Step(db.Snapshot(), outcome) == WorkspaceEvent(old(db.Snapshot()), e.workspaceId, StorageSizeCount, Some(-e.storageSize.value))
  {
    if e.storageSize.None? {
      // Negating the absent size raises before any lookup.
      outcome := Raised(TypeError);
      return;
    }
    outcome := GenericWorkspaceEventHandler(db, e.workspaceId, StorageSizeCount, Some(-e.storageSize.value));
  }

  /** get-or-create the caller's row (which commits) and add to its workspace
      count; the sum is pending in the session until the caller commits.
      Committing `pending` gives exactly `UserEvent`. */
  method GenericUserEventHandler(db: Store, userId: int, add: int) returns (pending: UserUsage)
    requires db.Valid()
    modifies db
    ensures db.Valid()
    ensures db.Snapshot() == WithUserUsage(old(db.Snapshot()), userId)
    ensures pending.userId == userId
    ensures db.Snapshot().(userUsages := db.userUsages[userId := pending]) == UserEvent(old(db.Snapshot()), userId, add)
  {
    var row, created := db.GetOrCreateUserUsage(userId);
    pending := row.(workspaceCount := row.workspaceCount + add);
  }

  method GenericWorkspaceEventHandler(db: Store, workspaceId: Option<int>, field: Counter, add: Option<int>)
    returns (outcome: Outcome)
    requires db.Valid()
    modifies db
    ensures db.Valid()
    ensures Step(db.Snapshot(), outcome) == WorkspaceEvent(old(db.Snapshot()), workspaceId, field, add)
  {
    if workspaceId.None? || workspaceId.value !in db.workspaceUsages {
      outcome := Raised(WorkspaceUsageNotFound);
      return;
    }
    var w := workspaceId.value;
    var row := db.workspaceUsages[w];
    var current := CounterOf(row, field);
    if add.None? {
      outcome := Raised(TypeError);
      return;
    }
    var next := current + add.value;
    if next >= 0 {
      if !FitsInteger(next) {
        // the commit fails on the column width and the change is dropped
        outcome := Raised(DataError);
        return;
      }
      db.workspaceUsages := db.workspaceUsages[w := WithCounter(row, field, next)];
    }
    // otherwise the would-be-negative value is refused and the field kept
    outcome := Handled;
  }

  // ---------------------------------------------------------------------
  // Properties

  /** An event whose type is none of the six changes nothing. */
  lemma UnknownTypeChangesNothing(s: Db, e: BillingEvent)
    requires forall t :: TypeTag(t) != e.eventType
    ensures BillingStep(s, e) == Step(s, Handled)
  {
  }

  /** WORKSPACE_CREATED: the caller's count goes up by exactly one and a
      zeroed usage row created by the caller appears; nothing else changes.
      A workspace id or a count too wide for its column fails the commit,
      and only get-or-create's row is kept. */
  lemma WorkspaceCreatedEffect(s: Db, e: BillingEvent, w: int)
    requires e.eventType == TypeTag(WorkspaceCreated)
    requires e.workspaceId == Some(w) && w !in s.workspaceUsages
    ensures var count := (if e.userId in s.userUsages then s.userUsages[e.userId].workspaceCount else 0) + 1;
      !(FitsInteger(w) && FitsInteger(count)) ==>
        BillingStep(s, e) == Step(WithUserUsage(s, e.userId), Raised(DataError))
    ensures var count := (if e.userId in s.userUsages then s.userUsages[e.userId].workspaceCount else 0) + 1;
      var after := BillingStep(s, e).db;
      FitsInteger(w) && FitsInteger(count) ==>
        && BillingStep(s, e).outcome == Handled
        && after.userUsages.Keys == s.userUsages.Keys + {e.userId}
        && after.userUsages[e.userId].workspaceCount == count
        && (forall u :: u in s.userUsages && u != e.userId ==> after.userUsages[u] == s.userUsages[u])
        && after.workspaceUsages == s.workspaceUsages[w := WorkspaceUsage(w, e.userId, 0, 0)]
        && after.subscriptions == s.subscriptions
        && after.offers == s.offers
  {
    TypeTagRoundTrip(WorkspaceCreated);
  }

  /** WORKSPACE_DELETED: the caller's count goes down by exactly one, with no
      floor other than the column's, and the workspace's usage row is
      removed, whoever created it. */
  lemma WorkspaceDeletedEffect(s: Db, e: BillingEvent, w: int)
    requires e.eventType == TypeTag(WorkspaceDeleted)
    requires e.workspaceId == Some(w) && w in s.workspaceUsages
    ensures var count := (if e.userId in s.userUsages then s.userUsages[e.userId].workspaceCount else 0) - 1;
      !FitsInteger(count) ==> BillingStep(s, e) == Step(WithUserUsage(s, e.userId), Raised(DataError))
    ensures var count := (if e.userId in s.userUsages then s.userUsages[e.userId].workspaceCount else 0) - 1;
      var after := BillingStep(s, e).db;
      FitsInteger(count) ==>
        && BillingStep(s, e).outcome == Handled
        && after.userUsages.Keys == s.userUsages.Keys + {e.userId}
        && after.userUsages[e.userId].workspaceCount == count
        && (forall u :: u in s.userUsages && u != e.userId ==> after.userUsages[u] == s.userUsages[u])
        && after.workspaceUsages == s.workspaceUsages - {w}
        && after.subscriptions == s.subscriptions
        && after.offers == s.offers
  {
    TypeTagRoundTrip(WorkspaceDeleted);
  }

  /** WORKSPACE_DELETED for a workspace with no usage row raises, and only
      the caller's get-or-create insert is kept. */
  lemma WorkspaceDeletedWithoutRow(s: Db, e: BillingEvent)
    requires e.eventType == TypeTag(WorkspaceDeleted)
    requires e.workspaceId.None? || e.workspaceId.value !in s.workspaceUsages
    ensures BillingStep(s, e) == Step(WithUserUsage(s, e.userId), Raised(UnmappedInstance))
  {
    TypeTagRoundTrip(WorkspaceDeleted);
  }

  /** The counter and signed amount a document or storage event moves. */
  function ScopedDelta(t: BillingEventType, storageSize: int): (Counter, int)
  {
    match t
    case WorkspaceDocumentCreated => (DocumentCount, 1)
    case WorkspaceDocumentDeleted => (DocumentCount, -1)
    case WorkspaceStorageCreated => (StorageSizeCount, storageSize)
    case WorkspaceStorageDeleted => (StorageSizeCount, -storageSize)
    case _ => (DocumentCount, 0)
  }

  predicate IsScoped(t: BillingEventType)
  {
    t.WorkspaceDocumentCreated? || t.WorkspaceDocumentDeleted? ||
    t.WorkspaceStorageCreated? || t.WorkspaceStorageDeleted?
  }

  /** A document or storage event on an existing usage row moves exactly the
      named counter by the signed amount. A would-be-negative result is
      refused and the counter keeps its old value; a result above the
      column's maximum fails the commit and nothing changes. The other
      counter, every other workspace, every user row and every subscription
      are unchanged. */
  lemma ScopedEventEffect(s: Db, e: BillingEvent, t: BillingEventType, w: int, size: int)
    requires IsScoped(t) && e.eventType == TypeTag(t)
    requires e.workspaceId == Some(w) && w in s.workspaceUsages
    requires e.storageSize == Some(size) || t.WorkspaceDocumentCreated? || t.WorkspaceDocumentDeleted?
    ensures var (field, add) := ScopedDelta(t, size);
      var before := s.workspaceUsages[w];
      var next := CounterOf(before, field) + add;
      && (next < 0 ==> BillingStep(s, e) == Step(s, Handled))
      && (next > IntegerMax ==> BillingStep(s, e) == Step(s, Raised(DataError)))
      && (0 <= next <= IntegerMax ==>
            BillingStep(s, e) == Step(s.(workspaceUsages := s.workspaceUsages[w := WithCounter(before, field, next)]), Handled))
  {
    TypeTagRoundTrip(t);
    match t
    case WorkspaceDocumentCreated =>
    case WorkspaceDocumentDeleted =>
    case WorkspaceStorageCreated =>
    case WorkspaceStorageDeleted =>
  }

  /** Setting a counter changes that counter and no other field. */
  lemma WithCounterSetsOnlyField(row: WorkspaceUsage, field: Counter, value: int)
    ensures CounterOf(WithCounter(row, field, value), field) == value
    ensures WithCounter(row, field, value).workspaceId == row.workspaceId
    ensures WithCounter(row, field, value).creatorUserId == row.creatorUserId
    ensures field.DocumentCount? ==> WithCounter(row, field, value).storageSizeCount == row.storageSizeCount
    ensures field.StorageSizeCount? ==> WithCounter(row, field, value).documentCount == row.documentCount
  {
  }

  /** A storage counter near the column's maximum: adding 1000 to
      2147483000 fails the commit and the counter keeps its value. */
  lemma StorageOverflowRefused()
    ensures var s := Db(map[], map[], map[], map[100 := WorkspaceUsage(100, 7, 0, 2147483000)]);
      BillingStep(s, BillingEvent("WORKSPACE_STORAGE_CREATED", 7, Some(100), Some(1000))) == Step(s, Raised(DataError))
  {
    TypeTagRoundTrip(WorkspaceStorageCreated);
  }

  /** A document or storage event for a workspace with no usage row raises
      and changes nothing. */
  lemma ScopedEventWithoutRow(s: Db, e: BillingEvent, t: BillingEventType)
    requires IsScoped(t) && e.eventType == TypeTag(t)
    requires e.workspaceId.None? || e.workspaceId.value !in s.workspaceUsages
    ensures BillingStep(s, e).db == s
    ensures BillingStep(s, e).outcome ==
      if t.WorkspaceStorageDeleted? && e.storageSize.None? then Raised(TypeError)
      else Raised(WorkspaceUsageNotFound)
  {
    TypeTagRoundTrip(t);
  }

  /** Document and storage counters that are non-negative. */
  ghost predicate WorkspaceCountersNonNegative(s: Db)
  {
    forall w :: w in s.workspaceUsages ==>
      s.workspaceUsages[w].documentCount >= 0 && s.workspaceUsages[w].storageSizeCount >= 0
  }

  lemma BillingStepKeepsCountersNonNegative(s: Db, e: BillingEvent)
    requires WorkspaceCountersNonNegative(s)
    ensures WorkspaceCountersNonNegative(BillingStep(s, e).db)
  {
  }

  /** Over any sequence of events the document and storage counters never go
      below zero. */
  lemma {:induction false} BillingEventsKeepCountersNonNegative(s: Db, events: seq<BillingEvent>)
    requires WorkspaceCountersNonNegative(s)
    ensures WorkspaceCountersNonNegative(ApplyBillingEvents(s, events))
    decreases |events|
  {
    if events != [] {
      BillingStepKeepsCountersNonNegative(s, events[0]);
      BillingEventsKeepCountersNonNegative(BillingStep(s, events[0]).db, events[1..]);
    }
  }

  lemma BillingStepKeepsSchema(s: Db, e: BillingEvent)
    requires Schema(s)
    ensures Schema(BillingStep(s, e).db)
  {
    GetOrCreateKeepsSchema(s, e.userId);
    match ParseEventType(e.eventType)
    case None =>
    case Some(WorkspaceCreated) => WorkspaceCreatedKeepsSchema(s, e);
    case Some(WorkspaceDeleted) => WorkspaceDeletedKeepsSchema(s, e);
    case Some(WorkspaceDocumentCreated) => WorkspaceEventKeepsSchema(s, e.workspaceId, DocumentCount, Some(1));
    case Some(WorkspaceDocumentDeleted) => WorkspaceEventKeepsSchema(s, e.workspaceId, DocumentCount, Some(-1));
    case Some(WorkspaceStorageCreated) => WorkspaceEventKeepsSchema(s, e.workspaceId, StorageSizeCount, e.storageSize);
    case Some(WorkspaceStorageDeleted) =>
      if e.storageSize.Some? {
        WorkspaceEventKeepsSchema(s, e.workspaceId, StorageSizeCount, Some(-e.storageSize.value));
      }
  }

  lemma WorkspaceEventKeepsSchema(s: Db, workspaceId: Option<int>, field: Counter, add: Option<int>)
    requires Schema(s)
    ensures Schema(WorkspaceEvent(s, workspaceId, field, add).db)
  {
    var r := WorkspaceEvent(s, workspaceId, field, add);
    if r.db != s {
      var w := workspaceId.value;
      var next := CounterOf(s.workspaceUsages[w], field) + add.value;
      var row := WithCounter(s.workspaceUsages[w], field, next);
      WithCounterSetsOnlyField(s.workspaceUsages[w], field, next);
      assert r.db == s.(workspaceUsages := s.workspaceUsages[w := row]);
    }
  }

  lemma WorkspaceCreatedKeepsSchema(s: Db, e: BillingEvent)
    requires Schema(s)
    ensures Schema(WorkspaceCreatedStep(s, e).db)
  {
    GetOrCreateKeepsSchema(s, e.userId);
    var r := WorkspaceCreatedStep(s, e);
    if r.outcome == Handled {
      var w := e.workspaceId.value;
      var users := UserEvent(s, e.userId, 1);
      assert r.db == users.(workspaceUsages := s.workspaceUsages[w := NewWorkspaceUsage(w, e.userId)]);
      assert UserUsagesKeyed(users.userUsages);
      assert ColumnsFit(users);
    }
  }

  lemma WorkspaceDeletedKeepsSchema(s: Db, e: BillingEvent)
    requires Schema(s)
    ensures Schema(WorkspaceDeletedStep(s, e).db)
  {
    GetOrCreateKeepsSchema(s, e.userId);
    var r := WorkspaceDeletedStep(s, e);
    if r.outcome == Handled {
      var users := UserEvent(s, e.userId, -1);
      assert r.db == users.(workspaceUsages := s.workspaceUsages - {e.workspaceId.value});
      assert UserUsagesKeyed(users.userUsages);
      assert ColumnsFit(users);
    }
  }

  /** The caller's workspace count has no floor: a user with no usage row who
      deletes a workspace another user created ends at -1. */
  lemma WorkspaceCountCanGoNegative()
    ensures var s := Db(map[], map[], map[], map[100 := NewWorkspaceUsage(100, 8)]);
      var after := BillingStep(s, BillingEvent("WORKSPACE_DELETED", 7, Some(100), None)).db;
      7 in after.userUsages && after.userUsages[7].workspaceCount == -1
  {
    TypeTagRoundTrip(WorkspaceDeleted);
  }

  /** WORKSPACE_CREATED by user 7 for workspace 100 on an empty ledger. */
  lemma WorkspaceCreatedScenario()
    ensures var after := BillingStep(Db(map[], map[], map[], map[]), BillingEvent("WORKSPACE_CREATED", 7, Some(100), None)).db;
      && 7 in after.userUsages && after.userUsages[7].workspaceCount == 1
      && 100 in after.workspaceUsages
      && after.workspaceUsages[100].creatorUserId == 7
      && after.workspaceUsages[100].documentCount == 0
  {
    TypeTagRoundTrip(WorkspaceCreated);
  }

  /** Three document creations then four deletions leave the count at zero:
      the fourth deletion is refused rather than reaching -1. */
  lemma DocumentCountStopsAtZero(s: Db)
    requires 100 in s.workspaceUsages && s.workspaceUsages[100].documentCount == 0
    ensures var created := BillingEvent("WORKSPACE_DOCUMENT_CREATED", 7, Some(100), None);
      var deleted := BillingEvent("WORKSPACE_DOCUMENT_DELETED", 7, Some(100), None);
      var after := ApplyBillingEvents(s, [created, created, created, deleted, deleted, deleted, deleted]);
      100 in after.workspaceUsages && after.workspaceUsages[100].documentCount == 0
  {
    var created := BillingEvent("WORKSPACE_DOCUMENT_CREATED", 7, Some(100), None);
    var deleted := BillingEvent("WORKSPACE_DOCUMENT_DELETED", 7, Some(100), None);
    TypeTagRoundTrip(WorkspaceDocumentCreated);
    TypeTagRoundTrip(WorkspaceDocumentDeleted);
    var es := [created, created, created, deleted, deleted, deleted, deleted];
    var s1 := BillingStep(s, created).db;
    var s2 := BillingStep(s1, created).db;
    var s3 := BillingStep(s2, created).db;
    var s4 := BillingStep(s3, deleted).db;
    var s5 := BillingStep(s4, deleted).db;
    var s6 := BillingStep(s5, deleted).db;
    var s7 := BillingStep(s6, deleted).db;
    assert s3.workspaceUsages[100].documentCount == 3;
    assert s6.workspaceUsages[100].documentCount == 0;
    assert s7 == s6;
    assert es[1..] == [created, created, deleted, deleted, deleted, deleted];
    assert es[2..] == [created, deleted, deleted, deleted, deleted];
    assert es[3..] == [deleted, deleted, deleted, deleted];
    assert es[4..] == [deleted, deleted, deleted];
    assert es[5..] == [deleted, deleted];
    assert es[6..] == [deleted];
    calc {
      ApplyBillingEvents(s, es);
      ApplyBillingEvents(s1, es[1..]);
      { assert es[1..][1..] == es[2..]; }
      ApplyBillingEvents(s2, es[2..]);
      { assert es[2..][1..] == es[3..]; }
      ApplyBillingEvents(s3, es[3..]);
      { assert es[3..][1..] == es[4..]; }
      ApplyBillingEvents(s4, es[4..]);
      { assert es[4..][1..] == es[5..]; }
      ApplyBillingEvents(s5, es[5..]);
      { assert es[5..][1..] == es[6..]; }
      ApplyBillingEvents(s6, es[6..]);
      { assert es[6..][1..] == []; }
      ApplyBillingEvents(s7, []);
    }
  }
}
