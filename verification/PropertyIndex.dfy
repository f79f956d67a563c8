/** The typed property index agrees with the raw property maps it was flattened from. */
module PropertyIndex {
  import opened Prelude
  import opened Events
  import opened TableRouting
  import opened EventQuery
  import opened QueryCompilation
  import PropertyWriter
  import Text

  // ------------------------------------- filters read against the raw maps

  /** A property value as a filter sees it. */
  datatype Typed = TypedNull | TypedText(text: string) | TypedNumber(number: Float64) | TypedFlag(flag: bool)

  function TypedValue(conv: Conversion, value: RawValue): Option<Typed> {
    match value
    case Null => Some(TypedNull)
    case Text(s) => Some(TypedText(s))
    case Bool(b) => Some(TypedFlag(b))
    case Number(n) => (match conv(n) case Some(f) => Some(TypedNumber(f)) case None => None)
    case Unsupported => None
  }

  predicate TypedMatches(value: Typed, f: PropertyFilter) {
    match value
    case TypedNull => f.valueType == TYPE_NULL && f.operator == "eq"
    case TypedText(s) => f.valueType == TYPE_STRING && TextMatches(f.operator, s, f.stringValue)
    case TypedNumber(x) =>
      f.valueType == TYPE_NUMBER && ((f.operator == "eq" && FloatEquals(x, f.numberValue)) || (f.operator == "neq" && !FloatEquals(x, f.numberValue)))
    case TypedFlag(b) =>
      f.valueType == TYPE_BOOL && ((f.operator == "eq" && b == f.boolValue) || (f.operator == "neq" && b != f.boolValue))
  }

  /** The event has a property of that scope and name with that value. */
  predicate HasTyped(conv: Conversion, e: Envelope, scope: string, name: string, value: Typed) {
    name in ScopeValues(e, scope) && TypedValue(conv, ScopeValues(e, scope)[name]) == Some(value)
  }

  /** The event's own property map satisfies the filter; an absent property satisfies nothing,
      not even an inequality. */
  predicate OwnMatches(conv: Conversion, e: Envelope, f: PropertyFilter) {
    var values, name := ScopeValues(e, f.scope), Text.TrimSpace(f.name);
    name in values && var value := TypedValue(conv, values[name]); value.Some? && TypedMatches(value.value, f)
  }

  /** The query read directly on an event and its raw maps. */
  predicate Satisfies(conv: Conversion, q: ListQuery, e: Envelope) {
    && InBounds(q, e.base)
    && (forall i | 0 <= i < |q.filters| :: FilterMatches(e.base, q.filters[i]))
    && (forall i | 0 <= i < |q.propertyFilters| :: OwnMatches(conv, e, q.propertyFilters[i]))
  }

  // ----------------------------------------------------- a row and its event

  predicate Accepted(f: PropertyFilter) {
    Comparable(f) && (f.valueType == TYPE_NULL ==> f.operator == "eq")
  }

  lemma OwnRowMatches(conv: Conversion, e: Envelope, r: Record, f: PropertyFilter)
    requires IsOwnRow(conv, e, r) && Accepted(f)
    requires r.scope == f.scope && r.name == Text.TrimSpace(f.name)
    ensures r.valueType == f.valueType && SlotMatches(r, f) <==> OwnMatches(conv, e, f)
  {
  }

  lemma CopyOfRow(conv: Conversion, e: Envelope, r: Record, f: PropertyFilter)
    requires Flatten(conv, e).Ok? && Accepted(f) && r in Flatten(conv, e).value && RowMatches(r, f)
    ensures r.base == e.base && OwnMatches(conv, e, f)
  {
    FlattenIsOwnRows(conv, e, r);
    OwnRowMatches(conv, e, r, f);
  }

  lemma RowOfCopy(conv: Conversion, e: Envelope, f: PropertyFilter) returns (r: Record)
    requires Flatten(conv, e).Ok? && Accepted(f) && OwnMatches(conv, e, f)
    ensures r in Flatten(conv, e).value && RowMatches(r, f) && r.base == e.base
  {
    r := OwnRow(conv, e, f.scope, Text.TrimSpace(f.name));
    OwnRowMatches(conv, e, r, f);
    FlattenIsOwnRows(conv, e, r);
  }

  lemma OwnValueConverts(conv: Conversion, e: Envelope, scope: string, name: string)
    requires Flatten(conv, e).Ok? && name in ScopeValues(e, scope)
    ensures scope in {SCOPE_EVENT, SCOPE_USER} && Convertible(conv, ScopeValues(e, scope)[name])
  {
    FlattenSucceeds(conv, e);
  }

  lemma ConvertedRecord(conv: Conversion, base: Base, scope: string, name: string, value: RawValue) returns (r: Record)
    requires Convertible(conv, value)
    ensures NewRecord(conv, base, scope, name, value) == Ok(r) && r.scope == scope && r.name == name && r.base == base
  {
    r := NewRecord(conv, base, scope, name, value).value;
  }

  lemma OwnRow(conv: Conversion, e: Envelope, scope: string, name: string) returns (r: Record)
    requires Flatten(conv, e).Ok? && name in ScopeValues(e, scope)
    ensures IsOwnRow(conv, e, r) && r.scope == scope && r.name == name && r.base == e.base
  {
    OwnValueConverts(conv, e, scope, name);
    r := ConvertedRecord(conv, e.base, scope, name, ScopeValues(e, scope)[name]);
  }

  // ------------------------------------------------- the index of many events

  type BaseRoute = Base -> Result<string, RouteError>

  function RouteOf(router: Router): BaseRoute {
    (b: Base) => PropertyRoute(router, b.tenantId, b.projectId, b.sourceId)
  }

  /** Routing looks at nothing but the event key. It need not separate different keys. */
  ghost predicate ByKey(route: BaseRoute) {
    forall a, b | SameEvent(a, b) :: route(a) == route(b)
  }

  /** One durable property batch: an event and the rows written for it. */
  datatype Batch = Batch(event: Envelope, rows: seq<Record>)

  ghost predicate AllFlatten(conv: Conversion, indexed: seq<Batch>) {
    forall i | 0 <= i < |indexed| :: Flatten(conv, indexed[i].event) == Ok(indexed[i].rows)
  }

  /** The rows of a table after the first `n` batches. */
  function IndexedRows(route: BaseRoute, indexed: seq<Batch>, table: string, n: nat): seq<Record>
    requires n <= |indexed|
  {
    if n == 0 then []
    else
      var sofar := IndexedRows(route, indexed, table, n - 1);
      if route(indexed[n - 1].event.base) == Ok(table) then sofar + indexed[n - 1].rows else sofar
  }

  lemma {:induction false} IndexedRowsHave(route: BaseRoute, indexed: seq<Batch>, table: string, n: nat, r: Record)
    requires n <= |indexed|
    ensures r in IndexedRows(route, indexed, table, n) <==>
              exists i | 0 <= i < n :: route(indexed[i].event.base) == Ok(table) && r in indexed[i].rows
  {
    if n > 0 {
      IndexedRowsHave(route, indexed, table, n - 1, r);
    }
  }

  ghost predicate SomeCopy(conv: Conversion, indexed: seq<Batch>, b: Base, f: PropertyFilter) {
    exists i | 0 <= i < |indexed| :: SameEvent(indexed[i].event.base, b) && OwnMatches(conv, indexed[i].event, f)
  }

  /** Whatever else shares the table, a filter finds an event exactly when one of the batches
      written for its own key satisfies it. */
  lemma {:induction false} IndexSeesOwnCopies(route: BaseRoute, conv: Conversion, indexed: seq<Batch>, table: string, b: Base, f: PropertyFilter)
    requires AllFlatten(conv, indexed) && ByKey(route) && route(b) == Ok(table) && Accepted(f)
    ensures IndexMatches(IndexedRows(route, indexed, table, |indexed|), b, f) <==> SomeCopy(conv, indexed, b, f)
  {
    var rows := IndexedRows(route, indexed, table, |indexed|);
    forall r | r in rows && SameEvent(r.base, b) && RowMatches(r, f) ensures SomeCopy(conv, indexed, b, f) {
      IndexedRowsHave(route, indexed, table, |indexed|, r);
      var i :| 0 <= i < |indexed| && r in indexed[i].rows;
      CopyOfRow(conv, indexed[i].event, r, f);
    }
    forall i | 0 <= i < |indexed| && SameEvent(indexed[i].event.base, b) && OwnMatches(conv, indexed[i].event, f)
      ensures IndexMatches(rows, b, f)
    {
      var r := RowOfCopy(conv, indexed[i].event, f);
      IndexedRowsHave(route, indexed, table, |indexed|, r);
    }
  }

  // ------------------------------------------------ when the index is faithful

  /** Names a filter can reach: selectors are trimmed, stored property names are not. */
  predicate Reachable(scope: string, name: string) {
    NormalizeSelector(scope, name) == Some(Selector(scope, name))
  }

  /** The batches written for the key of `e` hold, for every reachable selector, exactly the
      values `e` itself holds. */
  ghost predicate CopiesAgree(conv: Conversion, indexed: seq<Batch>, e: Envelope) {
    forall scope, name, value | Reachable(scope, name) ::
      HasTyped(conv, e, scope, name, value) <==>
      exists i | 0 <= i < |indexed| :: SameEvent(indexed[i].event.base, e.base) && HasTyped(conv, indexed[i].event, scope, name, value)
  }

  ghost predicate FiltersAgree(conv: Conversion, indexed: seq<Batch>, e: Envelope) {
    forall f | Accepted(f) && NormalizeSelector(f.scope, f.name).Some? :: SomeCopy(conv, indexed, e.base, f) <==> OwnMatches(conv, e, f)
  }

  lemma MatchHasValue(conv: Conversion, e: Envelope, f: PropertyFilter) returns (value: Typed)
    requires OwnMatches(conv, e, f)
    ensures HasTyped(conv, e, f.scope, Text.TrimSpace(f.name), value) && TypedMatches(value, f)
  {
    value := TypedValue(conv, ScopeValues(e, f.scope)[Text.TrimSpace(f.name)]).value;
  }

  lemma TrimmedIsReachable(f: PropertyFilter)
    requires NormalizeSelector(f.scope, f.name).Some?
    ensures Reachable(f.scope, Text.TrimSpace(f.name))
  {
    Text.TrimIdempotent(f.name);
  }

  lemma CopiesAgreeSuffices(conv: Conversion, indexed: seq<Batch>, e: Envelope, f: PropertyFilter)
    requires CopiesAgree(conv, indexed, e) && NormalizeSelector(f.scope, f.name).Some?
    ensures SomeCopy(conv, indexed, e.base, f) <==> OwnMatches(conv, e, f)
  {
    var name := Text.TrimSpace(f.name);
    TrimmedIsReachable(f);
    if SomeCopy(conv, indexed, e.base, f) {
      var i :| 0 <= i < |indexed| && SameEvent(indexed[i].event.base, e.base) && OwnMatches(conv, indexed[i].event, f);
      var value := MatchHasValue(conv, indexed[i].event, f);
      assert HasTyped(conv, e, f.scope, name, value);
    }
    if OwnMatches(conv, e, f) {
      var value := MatchHasValue(conv, e, f);
      var i :| 0 <= i < |indexed| && SameEvent(indexed[i].event.base, e.base) && HasTyped(conv, indexed[i].event, f.scope, name, value);
      assert OwnMatches(conv, indexed[i].event, f);
    }
  }

  /** The equality filter that singles out one value. */
  function EqualityFilter(scope: string, name: string, value: Typed): PropertyFilter {
    var blank := PropertyFilter(scope, name, TYPE_NULL, "eq", "", Finite(0.0), false);
    match value
    case TypedNull => blank
    case TypedText(s) => blank.(valueType := TYPE_STRING, stringValue := s)
    case TypedNumber(x) => blank.(valueType := TYPE_NUMBER, numberValue := x)
    case TypedFlag(b) => blank.(valueType := TYPE_BOOL, boolValue := b)
  }

  lemma EqualitySinglesOut(scope: string, name: string, value: Typed, other: Typed)
    requires value != TypedNumber(NaN)
    ensures Accepted(EqualityFilter(scope, name, value))
    ensures TypedMatches(other, EqualityFilter(scope, name, value)) <==> other == value
  {
  }

  lemma OwnEquality(conv: Conversion, e: Envelope, scope: string, name: string, value: Typed)
    requires Reachable(scope, name) && value != TypedNumber(NaN)
    ensures OwnMatches(conv, e, EqualityFilter(scope, name, value)) <==> HasTyped(conv, e, scope, name, value)
  {
    if name in ScopeValues(e, scope) {
      var own := TypedValue(conv, ScopeValues(e, scope)[name]);
      if own.Some? {
        EqualitySinglesOut(scope, name, value, own.value);
      }
    }
  }

  lemma FlattenedIsNumber(conv: Conversion, e: Envelope, scope: string, name: string)
    requires Flatten(conv, e).Ok?
    ensures !HasTyped(conv, e, scope, name, TypedNumber(NaN))
  {
    FlattenSucceeds(conv, e);
  }

  /** Filters answer for `e` from its own map exactly when the batches of its key agree with it:
      no weaker condition will do. */
  lemma FaithfulIffCopiesAgree(conv: Conversion, indexed: seq<Batch>, e: Envelope)
    requires AllFlatten(conv, indexed) && Flatten(conv, e).Ok?
    ensures FiltersAgree(conv, indexed, e) <==> CopiesAgree(conv, indexed, e)
  {
    if CopiesAgree(conv, indexed, e) {
      forall f | Accepted(f) && NormalizeSelector(f.scope, f.name).Some?
        ensures SomeCopy(conv, indexed, e.base, f) <==> OwnMatches(conv, e, f)
      {
        CopiesAgreeSuffices(conv, indexed, e, f);
      }
    }
    if FiltersAgree(conv, indexed, e) {
      forall scope, name, value | Reachable(scope, name)
        ensures HasTyped(conv, e, scope, name, value) <==>
                  exists i | 0 <= i < |indexed| :: SameEvent(indexed[i].event.base, e.base) && HasTyped(conv, indexed[i].event, scope, name, value)
      {
        AgreementReaches(conv, indexed, e, scope, name, value);
      }
    }
  }

  lemma AgreementReaches(conv: Conversion, indexed: seq<Batch>, e: Envelope, scope: string, name: string, value: Typed)
    requires AllFlatten(conv, indexed) && Flatten(conv, e).Ok? && FiltersAgree(conv, indexed, e) && Reachable(scope, name)
    ensures HasTyped(conv, e, scope, name, value) <==>
              exists i | 0 <= i < |indexed| :: SameEvent(indexed[i].event.base, e.base) && HasTyped(conv, indexed[i].event, scope, name, value)
  {
    if value == TypedNumber(NaN) {
      FlattenedIsNumber(conv, e, scope, name);
      forall i | 0 <= i < |indexed| ensures !HasTyped(conv, indexed[i].event, scope, name, value) {
        FlattenedIsNumber(conv, indexed[i].event, scope, name);
      }
    } else {
      var f := EqualityFilter(scope, name, value);
      EqualitySinglesOut(scope, name, value, value);
      OwnEquality(conv, e, scope, name, value);
      forall i | 0 <= i < |indexed| ensures OwnMatches(conv, indexed[i].event, f) <==> HasTyped(conv, indexed[i].event, scope, name, value) {
        OwnEquality(conv, indexed[i].event, scope, name, value);
      }
      assert SomeCopy(conv, indexed, e.base, f) <==> OwnMatches(conv, e, f);
    }
  }

  /** One batch, or any number of equal ones, written for an event from its own maps is enough. */
  lemma OwnBatchIsFaithful(conv: Conversion, indexed: seq<Batch>, e: Envelope, k: nat)
    requires k < |indexed| && SameEvent(indexed[k].event.base, e.base)
    requires forall i | 0 <= i < |indexed| && SameEvent(indexed[i].event.base, e.base) ::
               indexed[i].event.properties == e.properties && indexed[i].event.userProps == e.userProps
    ensures CopiesAgree(conv, indexed, e)
  {
    forall scope, name, value
      ensures HasTyped(conv, e, scope, name, value) <==>
                exists i | 0 <= i < |indexed| :: SameEvent(indexed[i].event.base, e.base) && HasTyped(conv, indexed[i].event, scope, name, value)
    {
      assert ScopeValues(indexed[k].event, scope) == ScopeValues(e, scope);
    }
  }

  // ------------------------------------------------ names no filter can reach

  /** The event without one of its properties. */
  function Drop(e: Envelope, scope: string, name: string): Envelope {
    if scope == SCOPE_EVENT then e.(properties := e.properties - {name})
    else if scope == SCOPE_USER then e.(userProps := e.userProps - {name})
    else e
  }

  /** The event without the properties whose names no filter can reach. */
  function Reduced(e: Envelope): Envelope {
    e.(properties := map k | k in e.properties && Reachable(SCOPE_EVENT, k) :: e.properties[k],
       userProps := map k | k in e.userProps && Reachable(SCOPE_USER, k) :: e.userProps[k])
  }

  /** The filter can be asked: its selector is well formed and its comparison supported. */
  predicate Askable(f: PropertyFilter) {
    Accepted(f) && NormalizeSelector(f.scope, f.name).Some?
  }

  lemma OtherNameSame(conv: Conversion, e: Envelope, scope: string, name: string, f: PropertyFilter)
    requires f.scope != scope || Text.TrimSpace(f.name) != name
    ensures OwnMatches(conv, Drop(e, scope, name), f) == OwnMatches(conv, e, f)
  {
  }

  /** A stored property decides the answer of some filter if and only if its name is reachable:
      not empty and without white space at its ends. Filter names are trimmed, stored names are
      not. */
  lemma DecidesIffReachable(conv: Conversion, e: Envelope, scope: string, name: string)
    requires Flatten(conv, e).Ok? && name in ScopeValues(e, scope)
    ensures (exists f :: Askable(f) && OwnMatches(conv, e, f) != OwnMatches(conv, Drop(e, scope, name), f)) <==> Reachable(scope, name)
  {
    OwnValueConverts(conv, e, scope, name);
    if Reachable(scope, name) {
      var value := TypedValue(conv, ScopeValues(e, scope)[name]).value;
      FlattenedIsNumber(conv, e, scope, name);
      OwnEquality(conv, e, scope, name, value);
      EqualitySinglesOut(scope, name, value, value);
      var f := EqualityFilter(scope, name, value);
      assert OwnMatches(conv, e, f) && !OwnMatches(conv, Drop(e, scope, name), f) && Askable(f);
    } else {
      forall f | Askable(f) ensures OwnMatches(conv, e, f) == OwnMatches(conv, Drop(e, scope, name), f) {
        TrimmedIsReachable(f);
        OtherNameSame(conv, e, scope, name, f);
      }
    }
  }

  /** Forgetting every unreachable name changes the answer of no filter. */
  lemma ReducedAnswersSame(conv: Conversion, e: Envelope, f: PropertyFilter)
    requires NormalizeSelector(f.scope, f.name).Some?
    ensures OwnMatches(conv, Reduced(e), f) == OwnMatches(conv, e, f)
  {
    TrimmedIsReachable(f);
  }

  // ------------------------------------------------ how the index comes about

  ghost predicate HoldsIndex(route: BaseRoute, indexed: seq<Batch>, tables: map<string, seq<Record>>) {
    forall t :: PropertyWriter.RowsOf(tables, t) == IndexedRows(route, indexed, t, |indexed|)
  }

  lemma {:induction false} EarlierBatches(route: BaseRoute, indexed: seq<Batch>, batch: Batch, table: string, n: nat)
    requires n <= |indexed|
    ensures IndexedRows(route, indexed + [batch], table, n) == IndexedRows(route, indexed, table, n)
  {
    if n > 0 {
      EarlierBatches(route, indexed, batch, table, n - 1);
    }
  }

  lemma {:induction false} IndexedOneMore(route: BaseRoute, indexed: seq<Batch>, batch: Batch, table: string)
    ensures var sofar, more := IndexedRows(route, indexed, table, |indexed|), indexed + [batch];
            IndexedRows(route, more, table, |more|) == if route(batch.event.base) == Ok(table) then sofar + batch.rows else sofar
  {
    EarlierBatches(route, indexed, batch, table, |indexed|);
  }

  /** A write of one event's rows either adds its batch to the index or leaves the index alone. */
  lemma WriteExtendsIndex(route: BaseRoute, byRecord: PropertyWriter.Route, indexed: seq<Batch>, batch: Batch, table: string,
                          before: map<string, seq<Record>>, after: map<string, seq<Record>>, targets: set<string>, sent: set<string>)
    requires HoldsIndex(route, indexed, before) && route(batch.event.base) == Ok(table)
    requires forall r | r in batch.rows :: byRecord(r) == Ok(table)
    requires PropertyWriter.Targets(byRecord, batch.rows, targets, |batch.rows|) && sent <= targets
    requires PropertyWriter.Received(byRecord, batch.rows, before, after, sent)
    ensures HoldsIndex(route, if sent == targets then indexed + [batch] else indexed, after)
  {
    PropertyWriter.OneSourceIsAtomic(byRecord, batch.rows, table, before, after, targets, sent);
    var now := if sent == targets then indexed + [batch] else indexed;
    forall t ensures PropertyWriter.RowsOf(after, t) == IndexedRows(route, now, t, |now|) {
      IndexedOneMore(route, indexed, batch, t);
      assert PropertyWriter.RowsOf(before, t) == IndexedRows(route, indexed, t, |indexed|);
    }
  }

  lemma OwnRowBase(conv: Conversion, e: Envelope, r: Record)
    requires IsOwnRow(conv, e, r)
    ensures r.base == e.base
  {
  }

  lemma FlattenedRowsShareBase(conv: Conversion, e: Envelope)
    requires Flatten(conv, e).Ok?
    ensures forall r | r in Flatten(conv, e).value :: r.base == e.base
  {
    var rows := Flatten(conv, e).value;
    forall r | r in rows ensures r.base == e.base {
      FlattenIsOwnRows(conv, e, r);
      OwnRowBase(conv, e, r);
    }
  }
}
