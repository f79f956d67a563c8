/** Building the guarded scope of an event query, and the evidence reported beside it. */
module QueryBuilder {
  import opened Prelude
  import opened Events
  import opened TableRouting
  import opened EventQuery
  import opened QueryCompilation
  import Text

  // ------------------------------------------------------------ rejections

  function FilterError(f: EventFilter): Option<QueryError> {
    if f.field !in FILTER_COLUMNS then Some(UnsupportedField)
    else if f.operator !in OPERATORS then Some(UnsupportedOperator)
    else if f.value == "" then Some(MissingValue)
    else None
  }

  function PropertyFilterError(policy: Policy, q: ListQuery, table: string, f: PropertyFilter): Option<QueryError> {
    var selector := NormalizeSelector(f.scope, f.name);
    if selector.None? then Some(BadSelector)
    else if !SelectorAllowed(policy, q, selector.value) then Some(NotAllowed)
    else if f.operator !in OPERATORS then Some(UnsupportedOperator)
    else if PropertyTableFor(table).Err? then Some(NoRoute(PropertyTableFor(table).error))
    else if f.valueType == TYPE_NULL && f.operator != "eq" then Some(NullNeedsEquals)
    else if f.valueType != TYPE_NULL && f.valueType !in VALUE_COLUMNS then Some(UnsupportedType)
    else None
  }

  /** A filter is taken exactly if its column and operator are known and it has a value; the first check
      that fails is reported. */
  lemma FilterErrorMeans(f: EventFilter)
    ensures var known := f.field in {"event_name", "distinct_id", "session_id", "visit_id", "source_type"};
            && (FilterError(f) == None <==> known && f.operator in {"eq", "neq"} && f.value != "")
            && (FilterError(f) == Some(UnsupportedField) <==> !known)
            && (FilterError(f) == Some(UnsupportedOperator) <==> known && f.operator !in {"eq", "neq"})
            && (FilterError(f) == Some(MissingValue) <==> known && f.operator in {"eq", "neq"} && f.value == "")
  {
  }

  /** The checks made before any condition is built, in order. */
  function GuardError(policy: Policy, router: Router, q: ListQuery): Option<QueryError> {
    if q.offset < 0 then Some(NegativeOffset)
    else if q.from != ZERO_TIME && q.to != ZERO_TIME && q.from >= q.to then Some(EmptyWindow)
    else if |q.filters| + |q.propertyFilters| > policy.maxFilters then Some(TooManyFilters)
    else if q.propertyFilters != [] && (q.from == ZERO_TIME || q.to == ZERO_TIME) then Some(UnboundedPropertyWindow)
    else if q.propertyFilters != [] && Sub(q.to, q.from) > policy.maxPropertyWindow then Some(PropertyWindowTooWide)
    else
      match RouteKey(router, q.tenantId, q.projectId, q.sourceId)
      case Err(cause) => Some(NoRoute(cause))
      case Ok(_) => None
  }

  /** A selector is allowed if the policy lists it, or the query lists one with its scope whose name
      differs from its own by white space at the ends only. */
  ghost predicate Granted(policy: Policy, q: ListQuery, scope: string, name: string) {
    || Selector(scope, name) in policy.allowed
    || exists i | 0 <= i < |q.allowed| :: q.allowed[i].scope == scope && Text.TrimSpace(q.allowed[i].name) == name
  }

  /** A property filter is taken exactly if it names a property of an event or of a user, blank names
      excluded, that is granted under its trimmed name, and compares a string, a number or a boolean,
      or asks for a null. */
  lemma PropertyFilterMeans(policy: Policy, q: ListQuery, f: PropertyFilter)
    ensures ValidPropertyFilter(policy, q, f) <==>
              && f.scope in {"event", "user"} && !Text.AllSpaces(f.name) && Granted(policy, q, f.scope, Text.TrimSpace(f.name))
              && ((f.operator in {"eq", "neq"} && f.valueType in {"string", "number", "bool"}) || (f.operator == "eq" && f.valueType == "null"))
  {
    Text.TrimmedAwayIffBlank(f.name);
    if f.scope in {SCOPE_EVENT, SCOPE_USER} && !Text.AllSpaces(f.name) {
      var s := Selector(f.scope, Text.TrimSpace(f.name));
      assert forall i | 0 <= i < |q.allowed| ::
        NormalizeSelector(q.allowed[i].scope, q.allowed[i].name) == Some(s) <==> q.allowed[i].scope == s.scope && Text.TrimSpace(q.allowed[i].name) == s.name;
    }
  }

  /** What a query that passes the checks before routing may ask for. The saturation of time differences
      makes no difference unless the widest window is the largest duration there is. */
  lemma WindowMeans(policy: Policy, router: Router, q: ListQuery)
    requires 0 <= policy.maxPropertyWindow < 0x7FFF_FFFF_FFFF_FFFF
    ensures GuardError(policy, router, q) == None || (exists cause :: GuardError(policy, router, q) == Some(NoRoute(cause))) <==>
              && q.offset >= 0 && (q.from == ZERO_TIME || q.to == ZERO_TIME || q.from < q.to)
              && |q.filters| + |q.propertyFilters| <= policy.maxFilters
              && (q.propertyFilters == [] || (q.from != ZERO_TIME && q.to != ZERO_TIME && q.from < q.to <= q.from + policy.maxPropertyWindow))
  {
  }

  /** The first filter at fault decides the error. */
  ghost predicate FirstFilterError(filters: seq<EventFilter>, error: QueryError) {
    exists i | 0 <= i < |filters| :: FilterError(filters[i]) == Some(error) && forall j | 0 <= j < i :: ValidFilter(filters[j])
  }

  ghost predicate FirstPropertyError(policy: Policy, q: ListQuery, table: string, error: QueryError) {
    exists i | 0 <= i < |q.propertyFilters| ::
      && PropertyFilterError(policy, q, table, q.propertyFilters[i]) == Some(error)
      && forall j | 0 <= j < i :: PropertyFilterError(policy, q, table, q.propertyFilters[j]).None?
  }

  // ------------------------------------------------------------- the builder

  /** The property table of an event table; queries without property filters never ask for it. */
  function PropertyTableName(table: string): string {
    match PropertyTableFor(table)
    case Ok(name) => name
    case Err(_) => ""
  }

  method ApplyEventFilters(scope: Scope, filters: seq<EventFilter>) returns (r: Result<Scope, QueryError>)
    ensures r.Ok? <==> forall i | 0 <= i < |filters| :: ValidFilter(filters[i])
    ensures r.Ok? ==> r.value == FilteredScope(scope, filters, |filters|)
    ensures r.Err? ==> FirstFilterError(filters, r.error)
  {
    var built := scope;
    for i := 0 to |filters|
      invariant forall j | 0 <= j < i :: ValidFilter(filters[j])
      invariant built == FilteredScope(scope, filters, i)
    {
      var f := filters[i];
      if f.field !in FILTER_COLUMNS {
        return Err(UnsupportedField);
      }
      if f.operator !in OPERATORS {
        return Err(UnsupportedOperator);
      }
      if f.value == "" {
        return Err(MissingValue);
      }
      built := built.Where([Test(f.field, OPERATORS[f.operator])], [VString(f.value)]);
    }
    return Ok(built);
  }

  method BuildPropertyFilterPredicate(policy: Policy, q: ListQuery, table: string, f: PropertyFilter)
    returns (r: Result<(Condition, seq<Value>), QueryError>)
    ensures r.Err? <==> PropertyFilterError(policy, q, table, f).Some?
    ensures r.Err? ==> PropertyFilterError(policy, q, table, f) == Some(r.error)
    ensures r.Ok? ==> r.value == (PropertyCondition(PropertyTableName(table), f), PropertyValues(q, f))
  {
    var selector := NormalizeSelector(f.scope, f.name);
    if selector.None? {
      return Err(BadSelector);
    }
    if !SelectorAllowed(policy, q, selector.value) {
      return Err(NotAllowed);
    }
    if f.operator !in OPERATORS {
      return Err(UnsupportedOperator);
    }
    var propertyTable := PropertyTableFor(table);
    if propertyTable.Err? {
      return Err(NoRoute(propertyTable.error));
    }
    var where := [
      Comparison("tenant_id", "="), Comparison("project_id", "="), Comparison("source_id", "="),
      Comparison("property_scope", "="), Comparison("property_name", "="), Comparison("property_type", "=")];
    var args := [
      VString(q.tenantId), VString(q.projectId), VString(q.sourceId),
      VString(selector.value.scope), VString(selector.value.name), VString(f.valueType)];
    if f.valueType == TYPE_NULL {
      if f.operator != "eq" {
        return Err(NullNeedsEquals);
      }
      return Ok((TupleIn(propertyTable.value, where), args));
    }
    if f.valueType !in VALUE_COLUMNS {
      return Err(UnsupportedType);
    }
    var value := if f.valueType == TYPE_STRING then VString(f.stringValue)
                 else if f.valueType == TYPE_NUMBER then VNumber(f.numberValue)
                 else VBool(f.boolValue);
    where := where + [Comparison(VALUE_COLUMNS[f.valueType], OPERATORS[f.operator])];
    return Ok((TupleIn(propertyTable.value, where), args + [value]));
  }

  predicate AcceptedUpTo(policy: Policy, q: ListQuery, table: string, n: nat)
    requires n <= |q.propertyFilters|
  {
    n == 0 || (AcceptedUpTo(policy, q, table, n - 1) && PropertyFilterError(policy, q, table, q.propertyFilters[n - 1]).None?)
  }

  lemma {:induction false} EachAccepted(policy: Policy, q: ListQuery, table: string, n: nat, i: nat)
    requires i < n <= |q.propertyFilters| && AcceptedUpTo(policy, q, table, n)
    ensures PropertyFilterError(policy, q, table, q.propertyFilters[i]).None?
  {
    if i < n - 1 {
      EachAccepted(policy, q, table, n - 1, i);
    }
  }

  lemma {:induction false} SomeRejected(policy: Policy, q: ListQuery, table: string, n: nat) returns (i: nat)
    requires n <= |q.propertyFilters| && !AcceptedUpTo(policy, q, table, n)
    ensures i < n && PropertyFilterError(policy, q, table, q.propertyFilters[i]).Some?
  {
    if AcceptedUpTo(policy, q, table, n - 1) {
      i := n - 1;
    } else {
      i := SomeRejected(policy, q, table, n - 1);
    }
  }

  lemma {:induction false} AcceptedMeans(policy: Policy, q: ListQuery, table: string, n: nat)
    requires n <= |q.propertyFilters|
    ensures AcceptedUpTo(policy, q, table, n) <==>
              forall i | 0 <= i < n :: PropertyFilterError(policy, q, table, q.propertyFilters[i]).None?
  {
    if AcceptedUpTo(policy, q, table, n) {
      forall i | 0 <= i < n ensures PropertyFilterError(policy, q, table, q.propertyFilters[i]).None? {
        EachAccepted(policy, q, table, n, i);
      }
    } else {
      var i := SomeRejected(policy, q, table, n);
    }
  }

  /** A fault at position `n` rejects the whole list. */
  lemma {:induction false} FaultRejects(policy: Policy, q: ListQuery, table: string, n: nat, error: QueryError)
    requires n < |q.propertyFilters| && AcceptedUpTo(policy, q, table, n)
    requires PropertyFilterError(policy, q, table, q.propertyFilters[n]) == Some(error)
    ensures FirstPropertyError(policy, q, table, error)
    ensures !AcceptedUpTo(policy, q, table, |q.propertyFilters|)
  {
    AcceptedMeans(policy, q, table, n);
    AcceptedMeans(policy, q, table, |q.propertyFilters|);
  }

  method ApplyPropertyFilters(policy: Policy, scope: Scope, table: string, q: ListQuery) returns (r: Result<Scope, QueryError>)
    ensures r.Ok? <==> AcceptedUpTo(policy, q, table, |q.propertyFilters|)
    ensures r.Ok? ==> r.value == PropertyScope(scope, q, PropertyTableName(table), |q.propertyFilters|)
    ensures r.Err? ==> FirstPropertyError(policy, q, table, r.error)
  {
    var built := scope;
    for i := 0 to |q.propertyFilters|
      invariant AcceptedUpTo(policy, q, table, i)
      invariant built == PropertyScope(scope, q, PropertyTableName(table), i)
    {
      var one := BuildPropertyFilterPredicate(policy, q, table, q.propertyFilters[i]);
      if one.Err? {
        FaultRejects(policy, q, table, i, one.error);
        return Err(one.error);
      }
      built := built.Where([one.value.0], one.value.1);
    }
    return Ok(built);
  }

  lemma OneAccepted(policy: Policy, q: ListQuery, table: string, f: PropertyFilter)
    ensures PropertyFilterError(policy, q, table, f).None? <==> ValidPropertyFilter(policy, q, f) && PropertyTableFor(table).Ok?
  {
  }

  lemma {:induction false} AcceptedIsValid(policy: Policy, q: ListQuery, table: string)
    ensures AcceptedUpTo(policy, q, table, |q.propertyFilters|) <==>
              && (forall i | 0 <= i < |q.propertyFilters| :: ValidPropertyFilter(policy, q, q.propertyFilters[i]))
              && (q.propertyFilters != [] ==> PropertyTableFor(table).Ok?)
  {
    AcceptedMeans(policy, q, table, |q.propertyFilters|);
    forall i | 0 <= i < |q.propertyFilters|
      ensures PropertyFilterError(policy, q, table, q.propertyFilters[i]).None? <==>
                ValidPropertyFilter(policy, q, q.propertyFilters[i]) && PropertyTableFor(table).Ok?
    {
      OneAccepted(policy, q, table, q.propertyFilters[i]);
    }
    if q.propertyFilters != [] && PropertyTableFor(table).Err? {
      OneAccepted(policy, q, table, q.propertyFilters[0]);
    }
  }

  lemma {:induction false} ErrorFree(policy: Policy, router: Router, q: ListQuery)
    ensures ValidQuery(policy, router, q) <==>
              && GuardError(policy, router, q).None?
              && (forall i | 0 <= i < |q.filters| :: ValidFilter(q.filters[i]))
              && AcceptedUpTo(policy, q, RouteKey(router, q.tenantId, q.projectId, q.sourceId).value, |q.propertyFilters|)
  {
    if GuardError(policy, router, q).None? {
      AcceptedIsValid(policy, q, RouteKey(router, q.tenantId, q.projectId, q.sourceId).value);
    }
  }

  /** One argument per placeholder, and on every database the selected rows are those that
      satisfy the query. */
  ghost predicate Means(s: Scope, q: ListQuery, propertyTable: string) {
    && WellBound(s)
    && forall db, e :: Selects(db, e, s) <==> Matches(q, PropertyRows(db, propertyTable), e.base)
  }

  lemma ValidFiltersCompare(policy: Policy, router: Router, q: ListQuery)
    requires ValidQuery(policy, router, q)
    ensures forall i | 0 <= i < |q.propertyFilters| :: Comparable(q.propertyFilters[i])
  {
    forall i | 0 <= i < |q.propertyFilters| ensures Comparable(q.propertyFilters[i]) {
      assert ValidPropertyFilter(policy, q, q.propertyFilters[i]);
    }
  }

  lemma CompiledMeans(q: ListQuery, table: string, propertyTable: string)
    requires forall i | 0 <= i < |q.filters| :: ValidFilter(q.filters[i])
    requires forall i | 0 <= i < |q.propertyFilters| :: Comparable(q.propertyFilters[i])
    ensures Means(CompiledScope(q, table, propertyTable), q, propertyTable)
  {
    var s := CompiledScope(q, table, propertyTable);
    forall db, e ensures WellBound(s) && (Selects(db, e, s) <==> Matches(q, PropertyRows(db, propertyTable), e.base)) {
      CompilationPreservesMeaning(db, e, q, table, propertyTable);
    }
    var e := Envelope(Base("", "", "", "", "", "", "", "", "", ZERO_TIME, ZERO_TIME, ""), map[], map[]);
    CompilationPreservesMeaning(Database(map[], map[]), e, q, table, propertyTable);
  }

  /** A query is accepted exactly when it is valid; the accepted scope reads the routed table,
      has one argument per placeholder, and selects on every database exactly the rows that
      satisfy the query. */
  method BuildFilteredEventsScope(policy: Policy, router: Router, q: ListQuery) returns (r: Result<Scope, QueryError>)
    ensures r.Ok? <==> ValidQuery(policy, router, q)
    ensures r.Ok? ==>
              var table := RouteKey(router, q.tenantId, q.projectId, q.sourceId).value;
              r.value.table == table && r.value == CompiledScope(q, table, PropertyTableName(table))
    ensures r.Ok? ==> Means(r.value, q, PropertyTableName(r.value.table))
    ensures r.Err? && GuardError(policy, router, q).Some? ==> GuardError(policy, router, q) == Some(r.error)
    ensures r.Err? && GuardError(policy, router, q).None? ==>
              || FirstFilterError(q.filters, r.error)
              || FirstPropertyError(policy, q, RouteKey(router, q.tenantId, q.projectId, q.sourceId).value, r.error)
  {
    ErrorFree(policy, router, q);
    if q.offset < 0 {
      return Err(NegativeOffset);
    }
    if q.from != ZERO_TIME && q.to != ZERO_TIME && q.from >= q.to {
      return Err(EmptyWindow);
    }
    if |q.filters| + |q.propertyFilters| > policy.maxFilters {
      return Err(TooManyFilters);
    }
    if q.propertyFilters != [] {
      if q.from == ZERO_TIME || q.to == ZERO_TIME {
        return Err(UnboundedPropertyWindow);
      }
      if Sub(q.to, q.from) > policy.maxPropertyWindow {
        return Err(PropertyWindowTooWide);
      }
    }
    var route := RouteKey(router, q.tenantId, q.projectId, q.sourceId);
    if route.Err? {
      return Err(NoRoute(route.error));
    }
    var table := route.value;
    var scope := BuildBounds(q, table);
    var filtered := ApplyEventFilters(scope, q.filters);
    if filtered.Err? {
      return filtered;
    }
    r := ApplyPropertyFilters(policy, filtered.value, table, q);
    if r.Ok? {
      ScopeTable(q, table, PropertyTableName(table));
      ValidFiltersCompare(policy, router, q);
      CompiledMeans(q, table, PropertyTableName(table));
    }
  }

  method BuildBounds(q: ListQuery, table: string) returns (scope: Scope)
    ensures scope == BoundedScope(q, table)
  {
    scope := Scope(table, [], []).Where(
      [Test("tenant_id", "="), Test("project_id", "="), Test("source_id", "=")],
      [VString(q.tenantId), VString(q.projectId), VString(q.sourceId)]);
    if q.from != ZERO_TIME {
      scope := scope.Where([Test("event_time", ">=")], [VTime(q.from)]);
    }
    if q.to != ZERO_TIME {
      scope := scope.Where([Test("event_time", "<")], [VTime(q.to)]);
    }
    if q.eventName != "" {
      scope := scope.Where([Test("event_name", "=")], [VString(q.eventName)]);
    }
    if q.distinctId != "" {
      scope := scope.Where([Test("distinct_id", "=")], [VString(q.distinctId)]);
    }
  }

  // --------------------------------------------------------------- evidence

  function ScalarFilterCount(q: ListQuery): nat {
    |q.filters|
    + (if q.eventName != "" then 1 else 0) + (if q.distinctId != "" then 1 else 0)
    + (if q.from != ZERO_TIME then 1 else 0) + (if q.to != ZERO_TIME then 1 else 0)
  }

  lemma {:induction false} FilteredShape(s: Scope, filters: seq<EventFilter>, n: nat)
    requires n <= |filters| && forall i | 0 <= i < n :: ValidFilter(filters[i])
    ensures FilteredScope(s, filters, n).table == s.table
    ensures |FilteredScope(s, filters, n).clauses| == |s.clauses| + n
  {
    if n > 0 {
      FilteredShape(s, filters, n - 1);
    }
  }

  lemma {:induction false} PropertyShape(s: Scope, q: ListQuery, table: string, n: nat)
    requires n <= |q.propertyFilters|
    ensures PropertyScope(s, q, table, n).table == s.table
    ensures |PropertyScope(s, q, table, n).clauses| == |s.clauses| + n
  {
    if n > 0 {
      PropertyShape(s, q, table, n - 1);
    }
  }

  lemma ScopeTable(q: ListQuery, table: string, propertyTable: string)
    requires forall i | 0 <= i < |q.filters| :: ValidFilter(q.filters[i])
    ensures CompiledScope(q, table, propertyTable).table == table
    ensures |CompiledScope(q, table, propertyTable).clauses| == |BoundedScope(q, table).clauses| + |q.filters| + |q.propertyFilters|
  {
    var bounded := BoundedScope(q, table);
    FilteredShape(bounded, q.filters, |q.filters|);
    PropertyShape(FilteredScope(bounded, q.filters, |q.filters|), q, propertyTable, |q.propertyFilters|);
  }

  /** The reported filter counts account for every Where clause but the routing one. */
  lemma EvidenceCountsClauses(q: ListQuery, table: string, propertyTable: string)
    requires forall i | 0 <= i < |q.filters| :: ValidFilter(q.filters[i])
    ensures |CompiledScope(q, table, propertyTable).clauses| == ScalarFilterCount(q) + |q.propertyFilters| + 1
  {
    ScopeTable(q, table, propertyTable);
  }
}
