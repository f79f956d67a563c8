/** Count, list and realtime plans over one guarded scope. */
module QueryPlans {
  import opened Prelude
  import opened Ordering
  import opened Events
  import opened TableRouting
  import opened EventQuery
  import opened QueryCompilation
  import opened QueryBuilder
  import opened Paging
  import opened PropertyIndex
  import opened QueryAnswers

  // ------------------------------------------------------------------ order

  datatype SortKey = SortKey(column: string, descending: bool)

  const SORT_COLUMNS: set<string> := {"event_time", "received_at", "event_name"}

  const SORT_DIRECTIONS: map<string, bool> := map["asc" := false, "desc" := true]

  function SortField(field: string): string { if field == "" then "event_time" else field }

  function SortDirection(direction: string): string { if direction == "" then "desc" else direction }

  /** The chosen column, then event time and receive time, latest first, where not already used. */
  function EventsOrder(field: string, direction: string): Result<seq<SortKey>, QueryError> {
    if SortField(field) !in SORT_COLUMNS then Err(UnsupportedSortField)
    else if SortDirection(direction) !in SORT_DIRECTIONS then Err(UnsupportedSortDirection)
    else
      var column := SortField(field);
      var first := SortKey(column, SORT_DIRECTIONS[SortDirection(direction)]);
      Ok([first]
         + (if column != "event_time" then [SortKey("event_time", true)] else [])
         + (if column != "received_at" then [SortKey("received_at", true)] else []))
  }

  const EventTimeOrder: Before<Envelope> := By((x: Time, y: Time) => x < y, (e: Envelope) => e.base.eventTime)
  const ReceivedAtOrder: Before<Envelope> := By((x: Time, y: Time) => x < y, (e: Envelope) => e.base.receivedAt)
  const EventNameOrder: Before<Envelope> := By(StringLess, (e: Envelope) => e.base.eventName)

  function ColumnOrder(column: string): Before<Envelope> {
    if column == "event_time" then EventTimeOrder
    else if column == "received_at" then ReceivedAtOrder
    else EventNameOrder
  }

  function KeyOrder(key: SortKey): Before<Envelope> {
    if key.descending then Reversed(ColumnOrder(key.column)) else ColumnOrder(key.column)
  }

  function OrderBy(keys: seq<SortKey>): Before<Envelope>
    requires keys != []
  {
    if |keys| == 1 then KeyOrder(keys[0]) else Then(KeyOrder(keys[0]), OrderBy(keys[1..]))
  }

  predicate SameSortKeys(field: string, a: Base, b: Base) {
    a.eventTime == b.eventTime && a.receivedAt == b.receivedAt && (field == "event_name" ==> a.eventName == b.eventName)
  }

  predicate SameColumn(column: string, a: Base, b: Base) {
    if column == "event_time" then a.eventTime == b.eventTime
    else if column == "received_at" then a.receivedAt == b.receivedAt
    else a.eventName == b.eventName
  }

  lemma TimesAreOrders()
    ensures StrictWeak(EventTimeOrder) && StrictWeak(ReceivedAtOrder)
    ensures forall a, b :: Tied(EventTimeOrder, a, b) <==> a.base.eventTime == b.base.eventTime
    ensures forall a, b :: Tied(ReceivedAtOrder, a, b) <==> a.base.receivedAt == b.base.receivedAt
  {
    ByIsOrder((x: Time, y: Time) => x < y, (e: Envelope) => e.base.eventTime);
    ByIsOrder((x: Time, y: Time) => x < y, (e: Envelope) => e.base.receivedAt);
  }

  lemma NameIsOrder()
    ensures StrictWeak(EventNameOrder)
    ensures forall a, b :: Tied(EventNameOrder, a, b) <==> a.base.eventName == b.base.eventName
  {
    StringOrder();
    ByIsOrder(StringLess, (e: Envelope) => e.base.eventName);
  }

  lemma ColumnIsOrder(column: string)
    ensures StrictWeak(ColumnOrder(column))
    ensures forall a, b :: Tied(ColumnOrder(column), a, b) <==> SameColumn(column, a.base, b.base)
  {
    if column == "event_time" || column == "received_at" {
      TimesAreOrders();
    } else {
      NameIsOrder();
    }
  }

  lemma KeyIsOrder(key: SortKey)
    ensures StrictWeak(KeyOrder(key))
    ensures forall a, b :: Tied(KeyOrder(key), a, b) <==> SameColumn(key.column, a.base, b.base)
  {
    ColumnIsOrder(key.column);
    ReversedIsOrder(ColumnOrder(key.column));
  }

  lemma {:induction false} KeysAreOrder(keys: seq<SortKey>)
    requires keys != []
    ensures StrictWeak(OrderBy(keys))
    ensures forall a: Envelope, b: Envelope ::
              Tied(OrderBy(keys), a, b) <==> forall i | 0 <= i < |keys| :: SameColumn(keys[i].column, a.base, b.base)
  {
    KeyIsOrder(keys[0]);
    if |keys| > 1 {
      var rest := keys[1..];
      KeysAreOrder(rest);
      ThenIsOrder(KeyOrder(keys[0]), OrderBy(rest));
      assert forall i | 1 <= i < |keys| :: keys[i] == rest[i - 1];
    }
  }

  /** Every accepted sort is an order that ties two rows exactly when they share the event time,
      the receive time and, for sorting by name, the name. */
  lemma EventsOrderTies(field: string, direction: string)
    requires EventsOrder(field, direction).Ok?
    ensures StrictWeak(OrderBy(EventsOrder(field, direction).value))
    ensures forall a: Envelope, b: Envelope ::
              Tied(OrderBy(EventsOrder(field, direction).value), a, b) <==> SameSortKeys(SortField(field), a.base, b.base)
  {
    var keys := EventsOrder(field, direction).value;
    KeysAreOrder(keys);
    forall a: Envelope, b: Envelope
      ensures (forall i | 0 <= i < |keys| :: SameColumn(keys[i].column, a.base, b.base)) <==> SameSortKeys(SortField(field), a.base, b.base)
    {
      KeysCover(field, direction, a.base, b.base);
    }
  }

  /** `a` comes before `b` by this column, in this direction. */
  predicate Precedes(column: string, descending: bool, a: Base, b: Base) {
    var (x, y) := if descending then (b, a) else (a, b);
    if column == "event_time" then x.eventTime < y.eventTime
    else if column == "received_at" then x.receivedAt < y.receivedAt
    else StringLess(x.eventName, y.eventName)
  }

  lemma KeyMeans(key: SortKey, a: Envelope, b: Envelope)
    ensures KeyOrder(key)(a, b) <==> Precedes(key.column, key.descending, a.base, b.base)
  {
  }

  lemma OrderOfTwo(first: SortKey, second: SortKey, a: Envelope, b: Envelope)
    ensures OrderBy([first, second])(a, b) <==>
              || Precedes(first.column, first.descending, a.base, b.base)
              || (SameColumn(first.column, a.base, b.base) && Precedes(second.column, second.descending, a.base, b.base))
  {
    assert [first, second][1..] == [second];
    KeyIsOrder(first);
    KeyMeans(first, a, b);
    KeyMeans(second, a, b);
  }

  lemma OrderOfThree(first: SortKey, second: SortKey, third: SortKey, a: Envelope, b: Envelope)
    ensures OrderBy([first, second, third])(a, b) <==>
              || Precedes(first.column, first.descending, a.base, b.base)
              || (SameColumn(first.column, a.base, b.base) && OrderBy([second, third])(a, b))
  {
    assert [first, second, third][1..] == [second, third];
    KeyIsOrder(first);
    KeyMeans(first, a, b);
  }

  /** What every accepted sort means: the chosen column in the chosen direction, event time and descending
      unless told otherwise; rows that tie there, the later event first; and rows that tie in both, the
      later received first. */
  lemma EventsOrderMeans(field: string, direction: string, a: Envelope, b: Envelope)
    requires EventsOrder(field, direction).Ok?
    ensures var column, descending := (if field == "" then "event_time" else field), direction != "asc";
            OrderBy(EventsOrder(field, direction).value)(a, b) <==>
              || Precedes(column, descending, a.base, b.base)
              || (SameColumn(column, a.base, b.base) && a.base.eventTime > b.base.eventTime)
              || (SameColumn(column, a.base, b.base) && a.base.eventTime == b.base.eventTime && a.base.receivedAt > b.base.receivedAt)
  {
    var first := SortKey(SortField(field), SORT_DIRECTIONS[SortDirection(direction)]);
    var byTime, byReceipt := SortKey("event_time", true), SortKey("received_at", true);
    if first.column == "event_time" {
      assert EventsOrder(field, direction).value == [first, byReceipt];
      OrderOfTwo(first, byReceipt, a, b);
    } else if first.column == "received_at" {
      assert EventsOrder(field, direction).value == [first, byTime];
      OrderOfTwo(first, byTime, a, b);
    } else {
      assert EventsOrder(field, direction).value == [first, byTime, byReceipt];
      OrderOfTwo(byTime, byReceipt, a, b);
      OrderOfThree(first, byTime, byReceipt, a, b);
    }
  }

  /** Exactly three columns and two directions are accepted; none given means the default. */
  lemma SortIsAccepted(field: string, direction: string)
    ensures EventsOrder(field, direction).Ok? <==>
              field in ["", "event_time", "received_at", "event_name"] && direction in ["", "asc", "desc"]
  {
  }

  lemma KeysCover(field: string, direction: string, a: Base, b: Base)
    requires EventsOrder(field, direction).Ok?
    ensures var keys := EventsOrder(field, direction).value;
            (forall i | 0 <= i < |keys| :: SameColumn(keys[i].column, a, b)) <==> SameSortKeys(SortField(field), a, b)
  {
    var keys := EventsOrder(field, direction).value;
    assert keys[0].column == SortField(field);
    if SortField(field) == "event_time" {
      assert keys[1].column == "received_at";
    } else {
      assert keys[1].column == "event_time";
      assert SortField(field) == "event_name" ==> keys[2].column == "received_at";
    }
  }

  // ------------------------------------------------------------------ plans

  const DEFAULT_EVENTS_LIMIT := 100
  const DEFAULT_REALTIME_LIMIT := 50
  const SECOND := 1_000_000_000

  datatype Family = EventsFamily | GoalFamily | RealtimeFamily

  datatype Evidence = Evidence(
    family: Family, effectiveLimit: int, offset: int, hasLowerBound: bool, hasUpperBound: bool, windowSeconds: int,
    scalarFilters: nat, propertyFilters: nat, usesPropertyTable: bool, sortField: string, sortDirection: string)

  datatype CountPlan = CountPlan(scope: Scope, evidence: Evidence)

  datatype ListPlan = ListPlan(scope: Scope, order: seq<SortKey>, limit: int, offset: int, evidence: Evidence)

  datatype CountQuery = CountQuery(
    tenantId: string, projectId: string, sourceId: string, eventName: string, distinctId: string,
    from: Time, to: Time, filters: seq<EventFilter>, propertyFilters: seq<PropertyFilter>, allowed: seq<Selector>)

  datatype RealtimeQuery = RealtimeQuery(tenantId: string, projectId: string, sourceId: string, since: Time, limit: int)

  function AsListQuery(q: CountQuery): ListQuery {
    ListQuery(q.tenantId, q.projectId, q.sourceId, q.eventName, q.distinctId, q.from, q.to, 0, 0, "", "",
      q.filters, q.propertyFilters, q.allowed)
  }

  function NormalizeLimit(policy: Policy, limit: int, fallback: int): int {
    Min(if limit <= 0 then fallback else limit, policy.maxQueryLimit)
  }

  /** No limit means the default, and no limit exceeds the policy's maximum. */
  lemma LimitMeans(policy: Policy, limit: int, fallback: int)
    requires policy.maxQueryLimit > 0 && fallback > 0
    ensures var n := NormalizeLimit(policy, limit, fallback);
            && 1 <= n <= policy.maxQueryLimit
            && (1 <= limit <= policy.maxQueryLimit ==> n == limit)
            && (limit > policy.maxQueryLimit ==> n == policy.maxQueryLimit)
            && (limit <= 0 && fallback <= policy.maxQueryLimit ==> n == fallback)
            && (limit <= 0 && fallback > policy.maxQueryLimit ==> n == policy.maxQueryLimit)
            && NormalizeLimit(policy, n, fallback) == n
  {
  }

  function RecentQuery(policy: Policy, q: RealtimeQuery): ListQuery {
    ListQuery(q.tenantId, q.projectId, q.sourceId, "", "", q.since, ZERO_TIME,
      NormalizeLimit(policy, q.limit, DEFAULT_REALTIME_LIMIT), 0, "", "", [], [], [])
  }

  function BuildEvidence(family: Family, q: ListQuery, limit: int): Evidence {
    Evidence(family, limit, q.offset, q.from != ZERO_TIME, q.to != ZERO_TIME,
      if q.from != ZERO_TIME && q.to != ZERO_TIME && q.to > q.from then Sub(q.to, q.from) / SECOND else 0,
      ScalarFilterCount(q), |q.propertyFilters|, |q.propertyFilters| > 0, SortField(q.sortField), SortDirection(q.sortDirection))
  }

  predicate SoundPolicy(policy: Policy) {
    policy.maxQueryLimit > 0 && policy.maxFilters > 0 && policy.maxPropertyWindow > 0
  }

  /** The statement of an accepted query. */
  function QueryScope(policy: Policy, router: Router, q: ListQuery): Scope
    requires ValidQuery(policy, router, q)
  {
    var table := RouteKey(router, q.tenantId, q.projectId, q.sourceId).value;
    CompiledScope(q, table, PropertyTableName(table))
  }

  /** The counts in the evidence account for every Where clause but the routing one. */
  predicate CountsClauses(evidence: Evidence, s: Scope) {
    |s.clauses| == evidence.scalarFilters + evidence.propertyFilters + 1
  }

  /** The evidence tells the bounds, the whole seconds between them, the use of the property table
      and the sort that the statement really has. */
  predicate Describes(evidence: Evidence, q: ListQuery, first: SortKey) {
    && evidence.offset == q.offset
    && (evidence.hasLowerBound <==> q.from != ZERO_TIME) && (evidence.hasUpperBound <==> q.to != ZERO_TIME)
    && (if q.from != ZERO_TIME && q.to != ZERO_TIME
        then evidence.windowSeconds * SECOND <= Sub(q.to, q.from) < (evidence.windowSeconds + 1) * SECOND
        else evidence.windowSeconds == 0)
    && (evidence.usesPropertyTable <==> q.propertyFilters != [])
    && evidence.sortField == first.column && (evidence.sortDirection == "desc" <==> first.descending)
  }

  method BuildEventCountQuery(policy: Policy, router: Router, q: CountQuery) returns (r: Result<CountPlan, QueryError>)
    ensures r.Ok? <==> ValidQuery(policy, router, AsListQuery(q))
    ensures r.Ok? ==> r.value.scope == QueryScope(policy, router, AsListQuery(q))
    ensures r.Ok? ==> CountsClauses(r.value.evidence, r.value.scope) && r.value.evidence.effectiveLimit == 0
  {
    var listQuery := AsListQuery(q);
    var scope := BuildFilteredEventsScope(policy, router, listQuery);
    if scope.Err? {
      return Err(scope.error);
    }
    EvidenceCountsClauses(listQuery, scope.value.table, PropertyTableName(scope.value.table));
    return Ok(CountPlan(scope.value, BuildEvidence(GoalFamily, listQuery, 0)));
  }

  /** The limit of a plan is between one and the policy's maximum. */
  method BuildEventsQuery(policy: Policy, router: Router, q: ListQuery, family: Family) returns (r: Result<ListPlan, QueryError>)
    requires SoundPolicy(policy)
    ensures r.Ok? <==> ValidQuery(policy, router, q) && EventsOrder(q.sortField, q.sortDirection).Ok?
    ensures r.Ok? ==> r.value.scope == QueryScope(policy, router, q) && Ok(r.value.order) == EventsOrder(q.sortField, q.sortDirection)
    ensures r.Ok? ==> 1 <= r.value.limit <= policy.maxQueryLimit
    ensures r.Ok? ==> r.value.limit == if q.limit <= 0 then Min(100, policy.maxQueryLimit) else Min(q.limit, policy.maxQueryLimit)
    ensures r.Ok? ==> r.value.offset == q.offset >= 0
    ensures r.Ok? ==> CountsClauses(r.value.evidence, r.value.scope) && r.value.evidence.effectiveLimit == r.value.limit
    ensures r.Ok? ==> Describes(r.value.evidence, q, r.value.order[0]) && r.value.evidence.family == family
  {
    var scope := BuildFilteredEventsScope(policy, router, q);
    if scope.Err? {
      return Err(scope.error);
    }
    var limit := NormalizeLimit(policy, q.limit, DEFAULT_EVENTS_LIMIT);
    var order := EventsOrder(q.sortField, q.sortDirection);
    if order.Err? {
      return Err(order.error);
    }
    EvidenceCountsClauses(q, scope.value.table, PropertyTableName(scope.value.table));
    return Ok(ListPlan(scope.value, order.value, limit, q.offset, BuildEvidence(family, q, limit)));
  }

  /** Recent events of one source: normalizing the limit twice is normalizing it once. */
  method BuildRealtimeQuery(policy: Policy, router: Router, q: RealtimeQuery) returns (r: Result<ListPlan, QueryError>)
    requires SoundPolicy(policy)
    ensures r.Ok? <==> RouteKey(router, q.tenantId, q.projectId, q.sourceId).Ok?
    ensures r.Ok? ==> r.value.limit == if q.limit <= 0 then Min(50, policy.maxQueryLimit) else Min(q.limit, policy.maxQueryLimit)
    ensures r.Ok? ==> r.value.offset == 0
    ensures r.Ok? ==> r.value.order == [SortKey("event_time", true), SortKey("received_at", true)]
    ensures r.Ok? ==> WellBound(r.value.scope) && forall db, e ::
              Selects(db, e, r.value.scope) <==>
                && e.base.tenantId == q.tenantId && e.base.projectId == q.projectId && e.base.sourceId == q.sourceId
                && (q.since != ZERO_TIME ==> q.since <= e.base.eventTime)
  {
    var recent := RecentQuery(policy, q);
    r := BuildEventsQuery(policy, router, recent, RealtimeFamily);
    if r.Ok? {
      QueryScopeMeans(policy, router, recent);
    }
  }

  lemma QueryScopeMeans(policy: Policy, router: Router, q: ListQuery)
    requires ValidQuery(policy, router, q)
    ensures RouteKey(router, q.tenantId, q.projectId, q.sourceId) == Ok(QueryScope(policy, router, q).table)
    ensures Means(QueryScope(policy, router, q), q, PropertyTableName(QueryScope(policy, router, q).table))
  {
    var table := RouteKey(router, q.tenantId, q.projectId, q.sourceId).value;
    ScopeTable(q, table, PropertyTableName(table));
    ValidFiltersCompare(policy, router, q);
    CompiledMeans(q, table, PropertyTableName(table));
  }

  /** On tables filled by the routed writers, the statement of a query answers it from the events'
      own property maps. */
  lemma {:induction false} StatementAnswersQuery(policy: Policy, router: Router, conv: Conversion, q: ListQuery,
                                                 stored: seq<Envelope>, indexed: seq<Batch>, db: Database)
    requires ValidQuery(policy, router, q) && Serves(router, stored, indexed, db)
    requires AllFlatten(conv, indexed) && Faithful(conv, q, stored, indexed)
    ensures WellBound(QueryScope(policy, router, q))
    ensures Answer(db, QueryScope(policy, router, q)) == Wanted(conv, q, stored, |stored|)
  {
    QueryScopeMeans(policy, router, q);
    AnswerIsWanted(policy, router, conv, q, stored, indexed, db, QueryScope(policy, router, q));
  }

  // ---------------------------------------------------------------- results

  /** What a count plan returns. */
  function CountOf(db: Database, plan: CountPlan): nat
    requires WellBound(plan.scope)
  {
    |Answer(db, plan.scope)|
  }

  /** What a list plan may return: its page of the matched rows in some order the plan allows. */
  ghost predicate Lists(db: Database, plan: ListPlan, page: seq<Envelope>)
    requires WellBound(plan.scope) && plan.order != [] && plan.limit >= 0 && plan.offset >= 0
  {
    exists rows :: SortedResult(OrderBy(plan.order), Answer(db, plan.scope), rows) && page == Page(rows, plan.limit, plan.offset)
  }

  /** The query of a list, as a count. */
  function AsCountQuery(q: ListQuery): CountQuery {
    CountQuery(q.tenantId, q.projectId, q.sourceId, q.eventName, q.distinctId, q.from, q.to, q.filters, q.propertyFilters, q.allowed)
  }

  lemma SameScope(policy: Policy, router: Router, q: ListQuery)
    requires ValidQuery(policy, router, q)
    ensures ValidQuery(policy, router, AsListQuery(AsCountQuery(q)))
    ensures QueryScope(policy, router, AsListQuery(AsCountQuery(q))) == QueryScope(policy, router, q)
  {
    var c := AsListQuery(AsCountQuery(q));
    forall i | 0 <= i < |q.propertyFilters| ensures ValidPropertyFilter(policy, c, q.propertyFilters[i]) {
      assert ValidPropertyFilter(policy, q, q.propertyFilters[i]);
    }
    var table := RouteKey(router, q.tenantId, q.projectId, q.sourceId).value;
    SameBounds(q, c, table);
    SamePropertyScope(FilteredScope(BoundedScope(q, table), q.filters, |q.filters|), q, c, PropertyTableName(table), |q.propertyFilters|);
  }

  lemma SameBounds(q: ListQuery, c: ListQuery, table: string)
    requires c == AsListQuery(AsCountQuery(q))
    ensures BoundedScope(c, table) == BoundedScope(q, table)
  {
  }

  lemma {:induction false} SamePropertyScope(s: Scope, q: ListQuery, c: ListQuery, table: string, n: nat)
    requires n <= |q.propertyFilters| && c == AsListQuery(AsCountQuery(q))
    ensures PropertyScope(s, c, table, n) == PropertyScope(s, q, table, n)
  {
    if n > 0 {
      SamePropertyScope(s, q, c, table, n - 1);
    }
  }

  /** The count of a query is the number of rows its list matches before paging, and a page of
      the list is as long as the count, the offset and the limit say. */
  lemma CountAndListAgree(policy: Policy, router: Router, q: ListQuery, db: Database, count: CountPlan, list: ListPlan, page: seq<Envelope>)
    requires ValidQuery(policy, router, q)
    requires count.scope == QueryScope(policy, router, AsListQuery(AsCountQuery(q))) && list.scope == QueryScope(policy, router, q)
    requires WellBound(list.scope) && list.order != [] && list.limit >= 0 && list.offset >= 0 && Lists(db, list, page)
    ensures WellBound(count.scope) && CountOf(db, count) == |Answer(db, list.scope)|
    ensures |page| == Min(list.limit, Max(0, CountOf(db, count) - list.offset))
  {
    SameScope(policy, router, q);
    var rows :| SortedResult(OrderBy(list.order), Answer(db, list.scope), rows) && page == Page(rows, list.limit, list.offset);
    PageLength(OrderBy(list.order), Answer(db, list.scope), rows, list.limit, list.offset);
  }

  /** Paging is stable exactly when no two different matched rows share the sort columns. */
  lemma PagingStableIffDistinctKeys(q: ListQuery, matched: seq<Envelope>, rows: seq<Envelope>)
    requires EventsOrder(q.sortField, q.sortDirection).Ok?
    requires SortedResult(OrderBy(EventsOrder(q.sortField, q.sortDirection).value), matched, rows)
    ensures OnlyResult(OrderBy(EventsOrder(q.sortField, q.sortDirection).value), matched, rows) <==>
              forall a, b | a in matched && b in matched && SameSortKeys(SortField(q.sortField), a.base, b.base) :: a == b
  {
    var before := OrderBy(EventsOrder(q.sortField, q.sortDirection).value);
    EventsOrderTies(q.sortField, q.sortDirection);
    StableIffNoTies(before, matched, rows);
    assert forall a: Envelope, b: Envelope :: Tied(before, a, b) <==> SameSortKeys(SortField(q.sortField), a.base, b.base);
  }

  /** Two events that differ only in their id may come in either order under every accepted sort, so
      two requests for consecutive pages can show the one twice and the other never. */
  lemma TwinsMayRepeat(field: string, direction: string, e: Envelope, otherId: string) returns (twin: Envelope)
    requires EventsOrder(field, direction).Ok? && otherId != e.base.eventId
    ensures twin == e.(base := e.base.(eventId := otherId)) && twin != e
    ensures var order := OrderBy(EventsOrder(field, direction).value);
            && SortedResult(order, [e, twin], [e, twin]) && SortedResult(order, [e, twin], [twin, e])
            && Page([e, twin], 1, 0) == [e] == Page([twin, e], 1, 1)
  {
    twin := e.(base := e.base.(eventId := otherId));
    EventsOrderTies(field, direction);
    var order := OrderBy(EventsOrder(field, direction).value);
    assert Tied(order, e, twin);
    TiedPairSwaps(order, e, twin);
  }

  lemma TiedPairSwaps(order: Before<Envelope>, a: Envelope, b: Envelope)
    requires Tied(order, a, b)
    ensures SortedResult(order, [a, b], [a, b]) && SortedResult(order, [a, b], [b, a])
  {
    assert multiset([a, b]) == multiset([b, a]);
  }
}
