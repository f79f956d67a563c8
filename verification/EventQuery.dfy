/** Compilation of event queries to a list of conditions with positional arguments. */
module EventQuery {
  import opened Prelude
  import opened Events
  import opened TableRouting
  import Text

  // ---------------------------------------------------------------- queries

  datatype EventFilter = EventFilter(field: string, operator: string, value: string)

  datatype Selector = Selector(scope: string, name: string)

  datatype PropertyFilter = PropertyFilter(
    scope: string, name: string, valueType: string, operator: string,
    stringValue: string, numberValue: Float64, boolValue: bool)

  datatype ListQuery = ListQuery(
    tenantId: string, projectId: string, sourceId: string, eventName: string, distinctId: string,
    from: Time, to: Time, limit: int, offset: int, sortField: string, sortDirection: string,
    filters: seq<EventFilter>, propertyFilters: seq<PropertyFilter>, allowed: seq<Selector>)

  datatype Policy = Policy(maxQueryLimit: int, maxFilters: int, maxPropertyWindow: int, allowed: set<Selector>)

  datatype QueryError =
    | NegativeOffset | EmptyWindow | TooManyFilters | UnboundedPropertyWindow | PropertyWindowTooWide
    | NoRoute(cause: RouteError)
    | UnsupportedField | UnsupportedOperator | MissingValue
    | BadSelector | NotAllowed | NullNeedsEquals | UnsupportedType
    | UnsupportedSortField | UnsupportedSortDirection

  const FILTER_COLUMNS: set<string> := {"event_name", "distinct_id", "session_id", "visit_id", "source_type"}

  const OPERATORS: map<string, string> := map["eq" := "=", "neq" := "!="]

  const VALUE_COLUMNS: map<string, string> :=
    map[TYPE_STRING := "string_value", TYPE_NUMBER := "number_value", TYPE_BOOL := "bool_value"]

  const MAX_DURATION := 0x7FFF_FFFF_FFFF_FFFF

  /** Go's time difference saturates at the largest duration. */
  function Sub(to: Time, from: Time): int {
    if to - from > MAX_DURATION then MAX_DURATION
    else if to - from < -MAX_DURATION - 1 then -MAX_DURATION - 1
    else to - from
  }

  function NormalizeSelector(scope: string, name: string): Option<Selector> {
    var trimmed := Text.TrimSpace(name);
    if trimmed == "" || scope !in {SCOPE_EVENT, SCOPE_USER} then None else Some(Selector(scope, trimmed))
  }

  predicate SelectorAllowed(policy: Policy, q: ListQuery, s: Selector) {
    s in policy.allowed || exists i | 0 <= i < |q.allowed| :: NormalizeSelector(q.allowed[i].scope, q.allowed[i].name) == Some(s)
  }

  // -------------------------------------------------------------------- SQL

  datatype Value = VString(s: string) | VTime(t: Time) | VNumber(f: Float64) | VBool(b: bool)

  /** The text `column op ?`. */
  datatype Comparison = Comparison(column: string, op: string)

  /** A comparison, or a tuple-IN subquery on a property table whose conditions are joined by AND. */
  datatype Condition =
    | Compare(comparison: Comparison)
    | TupleIn(table: string, where: seq<Comparison>)

  /** A statement under construction: one element of `clauses` per Where call, conditions inside
      a clause joined by AND, arguments in the order they were bound. */
  datatype Scope = Scope(table: string, clauses: seq<seq<Condition>>, args: seq<Value>)
  {
    function Where(clause: seq<Condition>, values: seq<Value>): Scope {
      Scope(table, clauses + [clause], args + values)
    }
  }

  function Test(column: string, operator: string): Condition {
    Compare(Comparison(column, operator))
  }

  // -------------------------------------------- evaluating a compiled scope

  /** Tables by physical name. */
  datatype Database = Database(events: map<string, seq<Envelope>>, properties: map<string, seq<Record>>)

  function EventRows(db: Database, table: string): seq<Envelope> {
    if table in db.events then db.events[table] else []
  }

  function PropertyRows(db: Database, table: string): seq<Record> {
    if table in db.properties then db.properties[table] else []
  }

  function EventColumn(e: Envelope, column: string): Option<Value> {
    match column
    case "event_id" => Some(VString(e.base.eventId))
    case "tenant_id" => Some(VString(e.base.tenantId))
    case "project_id" => Some(VString(e.base.projectId))
    case "source_id" => Some(VString(e.base.sourceId))
    case "source_type" => Some(VString(e.base.sourceType))
    case "event_name" => Some(VString(e.base.eventName))
    case "distinct_id" => Some(VString(e.base.distinctId))
    case "session_id" => Some(VString(e.base.sessionId))
    case "visit_id" => Some(VString(e.base.visitId))
    case "event_time" => Some(VTime(e.base.eventTime))
    case "received_at" => Some(VTime(e.base.receivedAt))
    case _ => None
  }

  function PropertyColumn(r: Record, column: string): Option<Value> {
    match column
    case "tenant_id" => Some(VString(r.base.tenantId))
    case "project_id" => Some(VString(r.base.projectId))
    case "source_id" => Some(VString(r.base.sourceId))
    case "event_id" => Some(VString(r.base.eventId))
    case "property_scope" => Some(VString(r.scope))
    case "property_name" => Some(VString(r.name))
    case "property_type" => Some(VString(r.valueType))
    case "string_value" => Some(VString(r.stringValue))
    case "number_value" => Some(VNumber(r.numberValue))
    case "bool_value" => Some(VBool(r.boolValue))
    case _ => None
  }

  /** IEEE equality: NaN equals nothing. */
  predicate Equal(a: Value, b: Value) {
    a == b && (a.VNumber? ==> a.f != NaN)
  }

  predicate Compares(op: string, cell: Option<Value>, arg: Value) {
    cell.Some? &&
    match op
    case "=" => Equal(cell.value, arg)
    case "!=" => !Equal(cell.value, arg)
    case ">=" => cell.value.VTime? && arg.VTime? && cell.value.t >= arg.t
    case "<" => cell.value.VTime? && arg.VTime? && cell.value.t < arg.t
    case _ => false
  }

  /** The tuple compared by the subqueries. */
  predicate SameEvent(a: Base, b: Base) {
    a.tenantId == b.tenantId && a.projectId == b.projectId && a.sourceId == b.sourceId && a.eventId == b.eventId
  }

  function Holes(c: Condition): nat {
    match c
    case Compare(_) => 1
    case TupleIn(_, where) => |where|
  }

  /** Placeholders of the first `n` conditions of a clause. */
  function ClauseHoles(clause: seq<Condition>, n: nat): nat
    requires n <= |clause|
  {
    if n == 0 then 0 else ClauseHoles(clause, n - 1) + Holes(clause[n - 1])
  }

  /** Placeholders of the first `n` clauses of a statement. */
  function ScopeHoles(clauses: seq<seq<Condition>>, n: nat): nat
    requires n <= |clauses|
  {
    if n == 0 then 0 else ScopeHoles(clauses, n - 1) + ClauseHoles(clauses[n - 1], |clauses[n - 1]|)
  }

  /** The placeholders of the condition take the arguments from position `at` on. */
  predicate EvalCondition(db: Database, e: Envelope, c: Condition, args: seq<Value>, at: nat)
    requires at + Holes(c) <= |args|
  {
    match c
    case Compare(comparison) => Compares(comparison.op, EventColumn(e, comparison.column), args[at])
    case TupleIn(table, where) =>
      exists r :: r in PropertyRows(db, table) && SameEvent(r.base, e.base) &&
        forall i | 0 <= i < |where| :: Compares(where[i].op, PropertyColumn(r, where[i].column), args[at + i])
  }

  predicate EvalClause(db: Database, e: Envelope, clause: seq<Condition>, n: nat, args: seq<Value>, at: nat)
    requires n <= |clause| && at + ClauseHoles(clause, n) <= |args|
  {
    n == 0 || (EvalClause(db, e, clause, n - 1, args, at) && EvalCondition(db, e, clause[n - 1], args, at + ClauseHoles(clause, n - 1)))
  }

  /** The first `n` clauses, placeholders taking the arguments in order from left to right. */
  predicate EvalClauses(db: Database, e: Envelope, clauses: seq<seq<Condition>>, n: nat, args: seq<Value>)
    requires n <= |clauses| && ScopeHoles(clauses, n) <= |args|
  {
    n == 0 || (EvalClauses(db, e, clauses, n - 1, args) && EvalClause(db, e, clauses[n - 1], |clauses[n - 1]|, args, ScopeHoles(clauses, n - 1)))
  }

  /** As many arguments as placeholders. */
  predicate WellBound(s: Scope) {
    |s.args| == ScopeHoles(s.clauses, |s.clauses|)
  }

  /** Whether the compiled statement selects the row. */
  predicate Selects(db: Database, e: Envelope, s: Scope)
    requires WellBound(s)
  {
    EvalClauses(db, e, s.clauses, |s.clauses|, s.args)
  }

  lemma ShiftCondition(db: Database, e: Envelope, c: Condition, before: seq<Value>, values: seq<Value>, at: nat)
    requires at + Holes(c) <= |values|
    ensures EvalCondition(db, e, c, before + values, |before| + at) <==> EvalCondition(db, e, c, values, at)
  {
    var all := before + values;
    assert forall j | at <= j < at + Holes(c) :: all[|before| + j] == values[j];
  }

  lemma {:induction false} ShiftClause(db: Database, e: Envelope, clause: seq<Condition>, n: nat, before: seq<Value>, values: seq<Value>)
    requires n <= |clause| && ClauseHoles(clause, n) <= |values|
    ensures EvalClause(db, e, clause, n, before + values, |before|) <==> EvalClause(db, e, clause, n, values, 0)
  {
    if n > 0 {
      ShiftClause(db, e, clause, n - 1, before, values);
      ShiftCondition(db, e, clause[n - 1], before, values, ClauseHoles(clause, n - 1));
    }
  }

  lemma ExtendCondition(db: Database, e: Envelope, c: Condition, args: seq<Value>, values: seq<Value>, at: nat)
    requires at + Holes(c) <= |args|
    ensures EvalCondition(db, e, c, args + values, at) <==> EvalCondition(db, e, c, args, at)
  {
    var all := args + values;
    assert forall j | at <= j < at + Holes(c) :: all[j] == args[j];
  }

  lemma {:induction false} ExtendClause(db: Database, e: Envelope, clause: seq<Condition>, n: nat, args: seq<Value>, values: seq<Value>, at: nat)
    requires n <= |clause| && at + ClauseHoles(clause, n) <= |args|
    ensures EvalClause(db, e, clause, n, args + values, at) <==> EvalClause(db, e, clause, n, args, at)
  {
    if n > 0 {
      ExtendClause(db, e, clause, n - 1, args, values, at);
      ExtendCondition(db, e, clause[n - 1], args, values, at + ClauseHoles(clause, n - 1));
    }
  }

  /** Another clause and other arguments behind change nothing in front. */
  lemma {:induction false} ExtendClauses(db: Database, e: Envelope, clauses: seq<seq<Condition>>,
                                         more: seq<seq<Condition>>, n: nat, args: seq<Value>, values: seq<Value>)
    requires n <= |clauses| <= |more| && forall i | 0 <= i < |clauses| :: more[i] == clauses[i]
    requires ScopeHoles(clauses, n) <= |args|
    ensures ScopeHoles(more, n) == ScopeHoles(clauses, n)
    ensures EvalClauses(db, e, more, n, args + values) <==> EvalClauses(db, e, clauses, n, args)
  {
    if n > 0 {
      ExtendClauses(db, e, clauses, more, n - 1, args, values);
      ExtendClause(db, e, clauses[n - 1], |clauses[n - 1]|, args, values, ScopeHoles(clauses, n - 1));
    }
  }

  /** One more Where call is one more conjunct over its own arguments. */
  lemma {:induction false} WhereSelects(db: Database, e: Envelope, s: Scope, clause: seq<Condition>, values: seq<Value>)
    requires WellBound(s) && |values| == ClauseHoles(clause, |clause|)
    ensures WellBound(s.Where(clause, values))
    ensures Selects(db, e, s.Where(clause, values)) <==> Selects(db, e, s) && EvalClause(db, e, clause, |clause|, values, 0)
  {
    ExtendClauses(db, e, s.clauses, s.clauses + [clause], |s.clauses|, s.args, values);
    ShiftClause(db, e, clause, |clause|, s.args, values);
  }

  /** A Where call with a single condition. */
  lemma WhereOneSelects(db: Database, e: Envelope, s: Scope, c: Condition, values: seq<Value>)
    requires WellBound(s) && |values| == Holes(c)
    ensures WellBound(s.Where([c], values))
    ensures Selects(db, e, s.Where([c], values)) <==> Selects(db, e, s) && EvalCondition(db, e, c, values, 0)
  {
    assert ClauseHoles([c], 0) == 0 && ClauseHoles([c], 1) == Holes(c);
    assert EvalClause(db, e, [c], 1, values, 0) <==> EvalCondition(db, e, c, values, 0);
    WhereSelects(db, e, s, [c], values);
  }
}
