/** The query builder, and the proof that what it emits means what the query says. */
module QueryCompilation {
  import opened Prelude
  import opened Events
  import opened TableRouting
  import opened EventQuery
  import Text

  // ------------------------------------------------------- direct semantics

  predicate TextMatches(operator: string, actual: string, wanted: string) {
    match operator
    case "eq" => actual == wanted
    case "neq" => actual != wanted
    case _ => false
  }

  predicate FilterMatches(b: Base, f: EventFilter) {
    match f.field
    case "event_name" => TextMatches(f.operator, b.eventName, f.value)
    case "distinct_id" => TextMatches(f.operator, b.distinctId, f.value)
    case "session_id" => TextMatches(f.operator, b.sessionId, f.value)
    case "visit_id" => TextMatches(f.operator, b.visitId, f.value)
    case "source_type" => TextMatches(f.operator, b.sourceType, f.value)
    case _ => false
  }

  predicate FloatEquals(a: Float64, b: Float64) {
    a == b && a != NaN
  }

  /** The typed comparison of a property filter with the value slots of a row. */
  predicate SlotMatches(r: Record, f: PropertyFilter) {
    if f.valueType == TYPE_NULL then true
    else if f.valueType == TYPE_STRING then TextMatches(f.operator, r.stringValue, f.stringValue)
    else if f.valueType == TYPE_NUMBER then
      (f.operator == "eq" && FloatEquals(r.numberValue, f.numberValue)) || (f.operator == "neq" && !FloatEquals(r.numberValue, f.numberValue))
    else
      (f.operator == "eq" && r.boolValue == f.boolValue) || (f.operator == "neq" && r.boolValue != f.boolValue)
  }

  predicate RowMatches(r: Record, f: PropertyFilter) {
    && r.scope == f.scope && r.name == Text.TrimSpace(f.name) && r.valueType == f.valueType
    && SlotMatches(r, f)
  }

  /** Some indexed row of the same event satisfies the filter. */
  predicate IndexMatches(rows: seq<Record>, b: Base, f: PropertyFilter) {
    exists r :: r in rows && SameEvent(r.base, b) && RowMatches(r, f)
  }

  predicate InBounds(q: ListQuery, b: Base) {
    && b.tenantId == q.tenantId && b.projectId == q.projectId && b.sourceId == q.sourceId
    && (q.from != ZERO_TIME ==> q.from <= b.eventTime)
    && (q.to != ZERO_TIME ==> b.eventTime < q.to)
    && (q.eventName != "" ==> b.eventName == q.eventName)
    && (q.distinctId != "" ==> b.distinctId == q.distinctId)
  }

  /** What the query asks of an event, given the rows of its property table. */
  predicate Matches(q: ListQuery, rows: seq<Record>, b: Base) {
    && InBounds(q, b)
    && (forall i | 0 <= i < |q.filters| :: FilterMatches(b, q.filters[i]))
    && (forall i | 0 <= i < |q.propertyFilters| :: IndexMatches(rows, b, q.propertyFilters[i]))
  }

  // -------------------------------------------------------------- validity

  predicate ValidFilter(f: EventFilter) {
    f.field in FILTER_COLUMNS && f.operator in OPERATORS && f.value != ""
  }

  predicate ValidPropertyFilter(policy: Policy, q: ListQuery, f: PropertyFilter) {
    && NormalizeSelector(f.scope, f.name).Some?
    && SelectorAllowed(policy, q, NormalizeSelector(f.scope, f.name).value)
    && f.operator in OPERATORS
    && (f.valueType in VALUE_COLUMNS || (f.valueType == TYPE_NULL && f.operator == "eq"))
  }

  predicate ValidWindow(policy: Policy, q: ListQuery) {
    && (q.from != ZERO_TIME && q.to != ZERO_TIME ==> q.from < q.to)
    && (q.propertyFilters != [] ==>
          q.from != ZERO_TIME && q.to != ZERO_TIME && Sub(q.to, q.from) <= policy.maxPropertyWindow)
  }

  predicate ValidQuery(policy: Policy, router: Router, q: ListQuery) {
    && q.offset >= 0
    && ValidWindow(policy, q)
    && |q.filters| + |q.propertyFilters| <= policy.maxFilters
    && var route := RouteKey(router, q.tenantId, q.projectId, q.sourceId);
    && route.Ok?
    && (forall i | 0 <= i < |q.filters| :: ValidFilter(q.filters[i]))
    && (forall i | 0 <= i < |q.propertyFilters| :: ValidPropertyFilter(policy, q, q.propertyFilters[i]))
    && (q.propertyFilters != [] ==> PropertyTableFor(route.value).Ok?)
  }

  // ---------------------------------------------------------- what is built

  function BaseScope(q: ListQuery, table: string): Scope {
    Scope(table, [], []).Where(
      [Test("tenant_id", "="), Test("project_id", "="), Test("source_id", "=")],
      [VString(q.tenantId), VString(q.projectId), VString(q.sourceId)])
  }

  function WhereIf(s: Scope, condition: bool, column: string, op: string, value: Value): Scope {
    if condition then s.Where([Test(column, op)], [value]) else s
  }

  function BoundedScope(q: ListQuery, table: string): Scope {
    WhereIf(WhereIf(WhereIf(WhereIf(BaseScope(q, table),
      q.from != ZERO_TIME, "event_time", ">=", VTime(q.from)),
      q.to != ZERO_TIME, "event_time", "<", VTime(q.to)),
      q.eventName != "", "event_name", "=", VString(q.eventName)),
      q.distinctId != "", "distinct_id", "=", VString(q.distinctId))
  }

  function AddFilter(s: Scope, f: EventFilter): Scope
    requires ValidFilter(f)
  {
    s.Where([Test(f.field, OPERATORS[f.operator])], [VString(f.value)])
  }

  function FilteredScope(s: Scope, filters: seq<EventFilter>, n: nat): Scope
    requires n <= |filters| && forall i | 0 <= i < n :: ValidFilter(filters[i])
  {
    if n == 0 then s
    else
      AddFilter(FilteredScope(s, filters, n - 1), filters[n - 1])
  }

  const PROPERTY_KEY: seq<Comparison> := [
    Comparison("tenant_id", "="), Comparison("project_id", "="), Comparison("source_id", "="),
    Comparison("property_scope", "="), Comparison("property_name", "="), Comparison("property_type", "=")]

  function PropertyArgs(q: ListQuery, f: PropertyFilter): seq<Value> {
    [VString(q.tenantId), VString(q.projectId), VString(q.sourceId),
     VString(f.scope), VString(Text.TrimSpace(f.name)), VString(f.valueType)]
  }

  function SlotArg(f: PropertyFilter): Value {
    if f.valueType == TYPE_STRING then VString(f.stringValue)
    else if f.valueType == TYPE_NUMBER then VNumber(f.numberValue)
    else VBool(f.boolValue)
  }

  /** Six conditions for a null filter, a seventh on the value column otherwise. */
  function PropertyCondition(table: string, f: PropertyFilter): Condition {
    TupleIn(table,
      if f.valueType in VALUE_COLUMNS && f.operator in OPERATORS
      then PROPERTY_KEY + [Comparison(VALUE_COLUMNS[f.valueType], OPERATORS[f.operator])]
      else PROPERTY_KEY)
  }

  function PropertyValues(q: ListQuery, f: PropertyFilter): seq<Value> {
    if f.valueType in VALUE_COLUMNS && f.operator in OPERATORS then PropertyArgs(q, f) + [SlotArg(f)] else PropertyArgs(q, f)
  }

  function AddPropertyFilter(s: Scope, q: ListQuery, table: string, f: PropertyFilter): Scope {
    s.Where([PropertyCondition(table, f)], PropertyValues(q, f))
  }

  function PropertyScope(s: Scope, q: ListQuery, table: string, n: nat): Scope
    requires n <= |q.propertyFilters|
  {
    if n == 0 then s
    else
      AddPropertyFilter(PropertyScope(s, q, table, n - 1), q, table, q.propertyFilters[n - 1])
  }

  function CompiledScope(q: ListQuery, table: string, propertyTable: string): Scope
    requires forall i | 0 <= i < |q.filters| :: ValidFilter(q.filters[i])
  {
    PropertyScope(FilteredScope(BoundedScope(q, table), q.filters, |q.filters|), q, propertyTable, |q.propertyFilters|)
  }

  // ------------------------------------------------------------ its meaning

  lemma WhereIfSelects(db: Database, e: Envelope, s: Scope, condition: bool, column: string, op: string, value: Value)
    requires WellBound(s)
    ensures WellBound(WhereIf(s, condition, column, op, value))
    ensures Selects(db, e, WhereIf(s, condition, column, op, value)) <==>
              Selects(db, e, s) && (condition ==> Compares(op, EventColumn(e, column), value))
  {
    if condition {
      WhereOneSelects(db, e, s, Test(column, op), [value]);
    }
  }

  lemma BaseSelects(db: Database, e: Envelope, q: ListQuery, table: string)
    ensures WellBound(BaseScope(q, table))
    ensures Selects(db, e, BaseScope(q, table)) <==>
              e.base.tenantId == q.tenantId && e.base.projectId == q.projectId && e.base.sourceId == q.sourceId
  {
    var clause := [Test("tenant_id", "="), Test("project_id", "="), Test("source_id", "=")];
    var values := [VString(q.tenantId), VString(q.projectId), VString(q.sourceId)];
    assert ClauseHoles(clause, 1) == 1 && ClauseHoles(clause, 2) == 2 && ClauseHoles(clause, 3) == 3;
    assert EvalClause(db, e, clause, 1, values, 0) <==> e.base.tenantId == q.tenantId;
    assert EvalClause(db, e, clause, 2, values, 0) <==> e.base.tenantId == q.tenantId && e.base.projectId == q.projectId;
    WhereSelects(db, e, Scope(table, [], []), clause, values);
  }

  lemma BoundsCompare(q: ListQuery, e: Envelope)
    ensures Compares(">=", EventColumn(e, "event_time"), VTime(q.from)) <==> q.from <= e.base.eventTime
    ensures Compares("<", EventColumn(e, "event_time"), VTime(q.to)) <==> e.base.eventTime < q.to
    ensures Compares("=", EventColumn(e, "event_name"), VString(q.eventName)) <==> e.base.eventName == q.eventName
    ensures Compares("=", EventColumn(e, "distinct_id"), VString(q.distinctId)) <==> e.base.distinctId == q.distinctId
  {
  }

  lemma BoundedSelects(db: Database, e: Envelope, q: ListQuery, table: string)
    ensures WellBound(BoundedScope(q, table))
    ensures Selects(db, e, BoundedScope(q, table)) <==> InBounds(q, e.base)
  {
    var s0 := BaseScope(q, table);
    var s1 := WhereIf(s0, q.from != ZERO_TIME, "event_time", ">=", VTime(q.from));
    var s2 := WhereIf(s1, q.to != ZERO_TIME, "event_time", "<", VTime(q.to));
    var s3 := WhereIf(s2, q.eventName != "", "event_name", "=", VString(q.eventName));
    BaseSelects(db, e, q, table);
    BoundsCompare(q, e);
    WhereIfSelects(db, e, s0, q.from != ZERO_TIME, "event_time", ">=", VTime(q.from));
    WhereIfSelects(db, e, s1, q.to != ZERO_TIME, "event_time", "<", VTime(q.to));
    WhereIfSelects(db, e, s2, q.eventName != "", "event_name", "=", VString(q.eventName));
    WhereIfSelects(db, e, s3, q.distinctId != "", "distinct_id", "=", VString(q.distinctId));
  }

  lemma AddFilterSelects(db: Database, e: Envelope, s: Scope, f: EventFilter)
    requires WellBound(s) && ValidFilter(f)
    ensures WellBound(AddFilter(s, f))
    ensures Selects(db, e, AddFilter(s, f)) <==> Selects(db, e, s) && FilterMatches(e.base, f)
  {
    WhereOneSelects(db, e, s, Test(f.field, OPERATORS[f.operator]), [VString(f.value)]);
  }

  lemma {:induction false} FilteredSelects(db: Database, e: Envelope, s: Scope, filters: seq<EventFilter>, n: nat)
    requires n <= |filters| && WellBound(s) && forall i | 0 <= i < n :: ValidFilter(filters[i])
    ensures WellBound(FilteredScope(s, filters, n))
    ensures Selects(db, e, FilteredScope(s, filters, n)) <==>
              Selects(db, e, s) && forall i | 0 <= i < n :: FilterMatches(e.base, filters[i])
  {
    if n > 0 {
      FilteredSelects(db, e, s, filters, n - 1);
      AddFilterSelects(db, e, FilteredScope(s, filters, n - 1), filters[n - 1]);
    }
  }

  lemma SlotCompares(r: Record, f: PropertyFilter)
    requires f.valueType in VALUE_COLUMNS && f.operator in OPERATORS
    ensures Compares(OPERATORS[f.operator], PropertyColumn(r, VALUE_COLUMNS[f.valueType]), SlotArg(f)) <==> SlotMatches(r, f)
  {
  }

  lemma KeyColumns(r: Record)
    ensures PropertyColumn(r, "tenant_id") == Some(VString(r.base.tenantId))
    ensures PropertyColumn(r, "project_id") == Some(VString(r.base.projectId))
    ensures PropertyColumn(r, "source_id") == Some(VString(r.base.sourceId))
    ensures PropertyColumn(r, "property_scope") == Some(VString(r.scope))
    ensures PropertyColumn(r, "property_name") == Some(VString(r.name))
    ensures PropertyColumn(r, "property_type") == Some(VString(r.valueType))
  {
  }

  predicate KeyCompare(q: ListQuery, r: Record, f: PropertyFilter, i: int)
    requires 0 <= i < 6
  {
    Compares(PROPERTY_KEY[i].op, PropertyColumn(r, PROPERTY_KEY[i].column), PropertyArgs(q, f)[i])
  }

  lemma OwnerCompares(q: ListQuery, r: Record, f: PropertyFilter)
    ensures KeyCompare(q, r, f, 0) <==> r.base.tenantId == q.tenantId
    ensures KeyCompare(q, r, f, 1) <==> r.base.projectId == q.projectId
    ensures KeyCompare(q, r, f, 2) <==> r.base.sourceId == q.sourceId
  {
    KeyColumns(r);
  }

  lemma SelectorCompares(q: ListQuery, r: Record, f: PropertyFilter)
    ensures KeyCompare(q, r, f, 3) <==> r.scope == f.scope
    ensures KeyCompare(q, r, f, 4) <==> r.name == Text.TrimSpace(f.name)
    ensures KeyCompare(q, r, f, 5) <==> r.valueType == f.valueType
  {
    KeyColumns(r);
  }

  lemma KeyCompares(q: ListQuery, r: Record, f: PropertyFilter)
    ensures (forall i | 0 <= i < 6 :: KeyCompare(q, r, f, i)) <==>
              && r.base.tenantId == q.tenantId && r.base.projectId == q.projectId && r.base.sourceId == q.sourceId
              && r.scope == f.scope && r.name == Text.TrimSpace(f.name) && r.valueType == f.valueType
  {
    OwnerCompares(q, r, f);
    SelectorCompares(q, r, f);
  }

  /** The subquery conditions on one row of the property table. */
  lemma RowCompares(q: ListQuery, table: string, r: Record, f: PropertyFilter)
    requires f.operator in OPERATORS && (f.valueType in VALUE_COLUMNS || f.valueType == TYPE_NULL)
    ensures |PropertyValues(q, f)| == Holes(PropertyCondition(table, f))
    ensures var where := PropertyCondition(table, f).where;
            (forall i | 0 <= i < |where| :: Compares(where[i].op, PropertyColumn(r, where[i].column), PropertyValues(q, f)[i])) <==>
              && r.base.tenantId == q.tenantId && r.base.projectId == q.projectId && r.base.sourceId == q.sourceId
              && RowMatches(r, f)
  {
    KeyCompares(q, r, f);
    var where, values := PropertyCondition(table, f).where, PropertyValues(q, f);
    assert forall i | 0 <= i < 6 :: where[i] == PROPERTY_KEY[i] && values[i] == PropertyArgs(q, f)[i];
    assert forall i | 0 <= i < 6 :: KeyCompare(q, r, f, i) <==> Compares(where[i].op, PropertyColumn(r, where[i].column), values[i]);
    if f.valueType in VALUE_COLUMNS {
      SlotCompares(r, f);
      assert |where| == 7 && where[6] == Comparison(VALUE_COLUMNS[f.valueType], OPERATORS[f.operator]) && values[6] == SlotArg(f);
    }
  }

  predicate OwnedBy(q: ListQuery, b: Base) {
    b.tenantId == q.tenantId && b.projectId == q.projectId && b.sourceId == q.sourceId
  }

  predicate Comparable(f: PropertyFilter) {
    f.operator in OPERATORS && (f.valueType in VALUE_COLUMNS || f.valueType == TYPE_NULL)
  }

  /** For an event of the queried source the subquery asks for an index row of that event. */
  lemma TupleInMatches(db: Database, e: Envelope, q: ListQuery, table: string, f: PropertyFilter)
    requires Comparable(f) && OwnedBy(q, e.base)
    ensures |PropertyValues(q, f)| == Holes(PropertyCondition(table, f))
    ensures EvalCondition(db, e, PropertyCondition(table, f), PropertyValues(q, f), 0) <==>
              IndexMatches(PropertyRows(db, table), e.base, f)
  {
    var where, values := PropertyCondition(table, f).where, PropertyValues(q, f);
    forall r | r in PropertyRows(db, table) && SameEvent(r.base, e.base)
      ensures (forall i | 0 <= i < |where| :: Compares(where[i].op, PropertyColumn(r, where[i].column), values[i])) <==> RowMatches(r, f)
    {
      RowCompares(q, table, r, f);
    }
    assert forall i | 0 <= i < |where| :: values[0 + i] == values[i];
  }

  lemma AddPropertySelects(db: Database, e: Envelope, s: Scope, q: ListQuery, table: string, f: PropertyFilter)
    requires WellBound(s) && Comparable(f)
    requires Selects(db, e, s) ==> OwnedBy(q, e.base)
    ensures WellBound(AddPropertyFilter(s, q, table, f))
    ensures Selects(db, e, AddPropertyFilter(s, q, table, f)) <==>
              Selects(db, e, s) && IndexMatches(PropertyRows(db, table), e.base, f)
  {
    WhereOneSelects(db, e, s, PropertyCondition(table, f), PropertyValues(q, f));
    if Selects(db, e, s) {
      TupleInMatches(db, e, q, table, f);
    }
  }

  predicate AllIndexed(rows: seq<Record>, b: Base, filters: seq<PropertyFilter>, n: nat)
    requires n <= |filters|
  {
    n == 0 || (AllIndexed(rows, b, filters, n - 1) && IndexMatches(rows, b, filters[n - 1]))
  }

  lemma {:induction false} AllIndexedMeans(rows: seq<Record>, b: Base, filters: seq<PropertyFilter>, n: nat)
    requires n <= |filters|
    ensures AllIndexed(rows, b, filters, n) <==> forall i | 0 <= i < n :: IndexMatches(rows, b, filters[i])
  {
    if n > 0 {
      AllIndexedMeans(rows, b, filters, n - 1);
    }
  }

  lemma {:induction false} PropertySelects(db: Database, e: Envelope, s: Scope, q: ListQuery, table: string, n: nat)
    requires n <= |q.propertyFilters| && WellBound(s) && forall i | 0 <= i < n :: Comparable(q.propertyFilters[i])
    requires Selects(db, e, s) ==> OwnedBy(q, e.base)
    ensures WellBound(PropertyScope(s, q, table, n))
    ensures Selects(db, e, PropertyScope(s, q, table, n)) <==>
              Selects(db, e, s) && AllIndexed(PropertyRows(db, table), e.base, q.propertyFilters, n)
  {
    if n > 0 {
      PropertySelects(db, e, s, q, table, n - 1);
      AddPropertySelects(db, e, PropertyScope(s, q, table, n - 1), q, table, q.propertyFilters[n - 1]);
    }
  }

  /** Compilation preserves meaning on every database: arguments and placeholders pair up, and
      the statement selects a row exactly when the query, read directly, does. */
  lemma CompilationPreservesMeaning(db: Database, e: Envelope, q: ListQuery, table: string, propertyTable: string)
    requires forall i | 0 <= i < |q.filters| :: ValidFilter(q.filters[i])
    requires forall i | 0 <= i < |q.propertyFilters| :: Comparable(q.propertyFilters[i])
    ensures WellBound(CompiledScope(q, table, propertyTable))
    ensures Selects(db, e, CompiledScope(q, table, propertyTable)) <==> Matches(q, PropertyRows(db, propertyTable), e.base)
  {
    var bounded := BoundedScope(q, table);
    var filtered := FilteredScope(bounded, q.filters, |q.filters|);
    BoundedSelects(db, e, q, table);
    FilteredSelects(db, e, bounded, q.filters, |q.filters|);
    PropertySelects(db, e, filtered, q, propertyTable, |q.propertyFilters|);
    AllIndexedMeans(PropertyRows(db, propertyTable), e.base, q.propertyFilters, |q.propertyFilters|);
  }
}
