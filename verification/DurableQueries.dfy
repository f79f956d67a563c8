/** From consumed offsets to query answers: a committed event is in the answer of exactly those
    queries that its own content satisfies. */
module DurableQueries {
  import opened Prelude
  import opened Events
  import opened TableRouting
  import opened EventQuery
  import opened QueryCompilation
  import opened QueryBuilder
  import opened PropertyIndex
  import opened QueryAnswers
  import opened QueryPlans
  import opened History
  import Catalog = PropertyCatalog
  import EndToEnd
  import Text

  /** No other content was published under the key of the event. */
  ghost predicate KeyNotReused(c: EndToEnd.Config, e: Envelope) {
    forall x: Envelope | InLog(c, x) && EndToEnd.KeyOf(x.base) == EndToEnd.KeyOf(e.base) :: x == e
  }

  // ---------------------------------------------------- accepted envelopes

  /** The property maps hold named, representable scalars, and a time to catalog them under if any. */
  ghost predicate Indexable(conv: Conversion, e: Envelope, values: map<string, RawValue>) {
    forall k | k in values :: k != "" && Convertible(conv, values[k]) && (e.base.eventTime != ZERO_TIME || e.base.receivedAt != ZERO_TIME)
  }

  lemma KeyIsPresent(b: Base)
    requires EndToEnd.ValidKey(EndToEnd.KeyOf(b))
    ensures b.tenantId != "" && b.projectId != "" && b.sourceId != "" && b.eventId != ""
  {
  }

  predicate OwnerKnown(b: Base) {
    b.tenantId != "" && b.projectId != "" && b.sourceId != ""
  }

  lemma OwnRowIsValid(conv: Conversion, e: Envelope, r: Record)
    requires IsOwnRow(conv, e, r) && OwnerKnown(e.base)
    ensures Catalog.Validate(r) == None <==> r.name != "" && (e.base.eventTime != ZERO_TIME || e.base.receivedAt != ZERO_TIME)
  {
  }

  lemma RowsAreValid(conv: Conversion, e: Envelope, rows: seq<Record>)
    requires Flatten(conv, e) == Ok(rows) && OwnerKnown(e.base)
    ensures (forall r | r in rows :: Catalog.Validate(r) == None) <==> Indexable(conv, e, e.properties) && Indexable(conv, e, e.userProps)
  {
    FlattenSucceeds(conv, e);
    if Indexable(conv, e, e.properties) && Indexable(conv, e, e.userProps) {
      forall r | r in rows ensures Catalog.Validate(r) == None {
        FlattenIsOwnRows(conv, e, r);
        OwnRowIsValid(conv, e, r);
      }
    }
    if forall r | r in rows :: Catalog.Validate(r) == None {
      forall scope, k | k in ScopeValues(e, scope) ensures k != "" && (e.base.eventTime != ZERO_TIME || e.base.receivedAt != ZERO_TIME) {
        var r := OwnRow(conv, e, scope, k);
        FlattenIsOwnRows(conv, e, r);
        OwnRowIsValid(conv, e, r);
      }
      assert forall k | k in e.properties :: k in ScopeValues(e, SCOPE_EVENT);
      assert forall k | k in e.userProps :: k in ScopeValues(e, SCOPE_USER);
    }
  }

  /** Which envelopes the composed writer accepts: none of the four ids is blank, and every property has
      a name and a representable scalar, with a time to record it at. */
  lemma AcceptedEnvelopes(conv: Conversion, e: Envelope)
    ensures EndToEnd.Prepare(conv, e).Some? <==>
              && Text.TrimSpace(e.base.tenantId) != "" && Text.TrimSpace(e.base.projectId) != ""
              && Text.TrimSpace(e.base.sourceId) != "" && Text.TrimSpace(e.base.eventId) != ""
              && Indexable(conv, e, e.properties) && Indexable(conv, e, e.userProps)
    ensures EndToEnd.Prepare(conv, e).Some? ==>
              EndToEnd.Prepare(conv, e).value.key == EndToEnd.StatusKey(e.base.tenantId, e.base.projectId, e.base.sourceId, e.base.eventId)
  {
    FlattenSucceeds(conv, e);
    if EndToEnd.ValidKey(EndToEnd.KeyOf(e.base)) && Flatten(conv, e).Ok? {
      KeyIsPresent(e.base);
      RowsAreValid(conv, e, Flatten(conv, e).value);
    }
  }

  // ------------------------------------------------------------- the tables

  lemma {:induction false} UnroutedTableIsEmpty(router: Router, stored: seq<Envelope>, table: string, n: nat)
    requires n <= |stored|
    requires forall i | 0 <= i < n :: RouteKey(router, stored[i].base.tenantId, stored[i].base.projectId, stored[i].base.sourceId) != Ok(table)
    ensures TableEvents(router, stored, table, n) == []
  {
    if n > 0 {
      UnroutedTableIsEmpty(router, stored, table, n - 1);
    }
  }

  lemma {:induction false} UnroutedIndexIsEmpty(route: BaseRoute, indexed: seq<Batch>, table: string, n: nat)
    requires n <= |indexed| && forall i | 0 <= i < n :: route(indexed[i].event.base) != Ok(table)
    ensures IndexedRows(route, indexed, table, n) == []
  {
    if n > 0 {
      UnroutedIndexIsEmpty(route, indexed, table, n - 1);
    }
  }

  function EventRoute(router: Router, b: Base): Result<string, RouteError> {
    RouteKey(router, b.tenantId, b.projectId, b.sourceId)
  }

  /** For any appends there are tables that hold exactly them. */
  lemma TablesExist(router: Router, stored: seq<Envelope>, indexed: seq<Batch>) returns (db: Database)
    ensures Serves(router, stored, indexed, db)
  {
    var route := RouteOf(router);
    var names := set i | 0 <= i < |stored| && EventRoute(router, stored[i].base).Ok? :: EventRoute(router, stored[i].base).value;
    var propertyNames := set i | 0 <= i < |indexed| && route(indexed[i].event.base).Ok? :: route(indexed[i].event.base).value;
    db := Database(map t | t in names :: TableEvents(router, stored, t, |stored|),
                   map t | t in propertyNames :: IndexedRows(route, indexed, t, |indexed|));
    forall t ensures EventRows(db, t) == TableEvents(router, stored, t, |stored|) {
      if t !in names {
        assert forall i | 0 <= i < |stored| :: EventRoute(router, stored[i].base) != Ok(t);
        UnroutedTableIsEmpty(router, stored, t, |stored|);
      }
    }
    forall t ensures PropertyRows(db, t) == IndexedRows(route, indexed, t, |indexed|) {
      if t !in propertyNames {
        UnroutedIndexIsEmpty(route, indexed, t, |indexed|);
      }
    }
  }

  // ------------------------------------------- what is recorded for one event

  lemma {:induction false} SomeRow(stored: seq<Envelope>, key: EndToEnd.StatusKey, n: nat) returns (i: nat)
    requires n <= |stored| && RowsFor(stored, key, n) > 0
    ensures i < n && EndToEnd.KeyOf(stored[i].base) == key
  {
    if EndToEnd.KeyOf(stored[n - 1].base) == key {
      i := n - 1;
    } else {
      i := SomeRow(stored, key, n - 1);
    }
  }

  lemma {:induction false} SomeBatch(indexed: seq<Batch>, key: EndToEnd.StatusKey, n: nat) returns (i: nat)
    requires n <= |indexed| && BatchesFor(indexed, key, n) != []
    ensures i < n && EndToEnd.KeyOf(indexed[i].event.base) == key
  {
    if EndToEnd.KeyOf(indexed[n - 1].event.base) == key {
      i := n - 1;
    } else {
      i := SomeBatch(indexed, key, n - 1);
    }
  }

  lemma SourcedFlattens(c: EndToEnd.Config, key: EndToEnd.StatusKey, e: Envelope, records: seq<Record>)
    requires Sourced(c, key, e, records)
    ensures Flatten(c.conv, e) == Ok(records) && key == EndToEnd.KeyOf(e.base)
  {
  }

  lemma AppendsFlatten(c: EndToEnd.Config, tr: Trace)
    requires AppendsSourced(SourceOf(c), tr)
    ensures AllFlatten(c.conv, tr.indexed)
  {
    forall i | 0 <= i < |tr.indexed| ensures Flatten(c.conv, tr.indexed[i].event) == Ok(tr.indexed[i].rows) {
      assert SourceOf(c)(EndToEnd.KeyOf(tr.indexed[i].event.base), tr.indexed[i].event, tr.indexed[i].rows);
      SourcedFlattens(c, EndToEnd.KeyOf(tr.indexed[i].event.base), tr.indexed[i].event, tr.indexed[i].rows);
    }
  }

  lemma NoRowsNoValues(conv: Conversion, e: Envelope, scope: string, name: string, value: Typed)
    requires Flatten(conv, e) == Ok([])
    ensures !HasTyped(conv, e, scope, name, value)
  {
    if HasTyped(conv, e, scope, name, value) {
      var r := OwnRow(conv, e, scope, name);
      FlattenIsOwnRows(conv, e, r);
    }
  }

  /** Batches written only from the event itself agree with it, if there is one or nothing to write. */
  lemma OwnBatchesAgree(conv: Conversion, indexed: seq<Batch>, e: Envelope)
    requires Flatten(conv, e).Ok?
    requires forall i | 0 <= i < |indexed| && SameEvent(indexed[i].event.base, e.base) :: indexed[i].event == e
    requires Flatten(conv, e).value != [] ==> exists i | 0 <= i < |indexed| :: SameEvent(indexed[i].event.base, e.base)
    ensures CopiesAgree(conv, indexed, e)
  {
    if Flatten(conv, e).value != [] {
      var k :| 0 <= k < |indexed| && SameEvent(indexed[k].event.base, e.base);
      OwnBatchIsFaithful(conv, indexed, e, k);
    } else {
      forall scope, name, value
        ensures HasTyped(conv, e, scope, name, value) <==>
                  exists i | 0 <= i < |indexed| :: SameEvent(indexed[i].event.base, e.base) && HasTyped(conv, indexed[i].event, scope, name, value)
      {
        NoRowsNoValues(conv, e, scope, name, value);
      }
    }
  }

  lemma RecordedAppends(c: EndToEnd.Config, s: EndToEnd.System, tr: Trace, e: Envelope, rows: seq<Record>)
    requires TraceInv(c, s, tr) && KeyNotReused(c, e) && Flatten(c.conv, e) == Ok(rows)
    requires EndToEnd.MachineAt(s, EndToEnd.KeyOf(e.base)).store.rows >= 1
    requires rows != [] ==> |EndToEnd.MachineAt(s, EndToEnd.KeyOf(e.base)).store.batches| == 1
    ensures e in tr.stored && CopiesAgree(c.conv, tr.indexed, e)
  {
    var key := EndToEnd.KeyOf(e.base);
    assert KeyTraced(SourceOf(c), key, EndToEnd.MachineAt(s, key), tr);
    var i := SomeRow(tr.stored, key, |tr.stored|);
    assert HasSource(SourceOf(c), tr.stored[i]);
    assert InLog(c, tr.stored[i]) && tr.stored[i] == e;
    forall k | 0 <= k < |tr.indexed| && SameEvent(tr.indexed[k].event.base, e.base) ensures tr.indexed[k].event == e {
      assert SourceOf(c)(EndToEnd.KeyOf(tr.indexed[k].event.base), tr.indexed[k].event, tr.indexed[k].rows);
    }
    if rows != [] {
      var k := SomeBatch(tr.indexed, key, |tr.indexed|);
      assert SameEvent(tr.indexed[k].event.base, e.base);
    }
    OwnBatchesAgree(c.conv, tr.indexed, e);
  }

  lemma DurableIsRecorded(c: EndToEnd.Config, s: EndToEnd.System, tr: Trace, offset: int)
    requires TraceInv(c, s, tr) && EndToEnd.Durable(c, s, offset)
    requires KeyNotReused(c, c.log[offset].envelope)
    ensures c.log[offset].envelope in tr.stored && CopiesAgree(c.conv, tr.indexed, c.log[offset].envelope)
  {
    var job := EndToEnd.JobOf(c, offset).value;
    JobIsSourced(c, offset);
    SourcedFlattens(c, job.key, c.log[offset].envelope, job.records);
    RecordedAppends(c, s, tr, c.log[offset].envelope, job.records);
  }

  // ------------------------------------------------ when answers are right

  /** Every valid query finds the event exactly if the event's own content satisfies it, on any
      tables that hold these appends. */
  ghost predicate AnsweredRight(policy: Policy, router: Router, conv: Conversion, stored: seq<Envelope>, indexed: seq<Batch>, e: Envelope) {
    forall q, db | ValidQuery(policy, router, q) && Serves(router, stored, indexed, db) :: FoundRight(policy, router, conv, q, db, e)
  }

  ghost predicate FoundRight(policy: Policy, router: Router, conv: Conversion, q: ListQuery, db: Database, e: Envelope)
    requires ValidQuery(policy, router, q)
  {
    && WellBound(QueryScope(policy, router, q))
    && (e in Answer(db, QueryScope(policy, router, q)) <==> Satisfies(conv, q, e))
  }

  /** The query for everything of the event's source. */
  function OpenQuery(b: Base): ListQuery {
    ListQuery(b.tenantId, b.projectId, b.sourceId, "", "", ZERO_TIME, ZERO_TIME, 0, 0, "", "", [], [], [])
  }

  /** The query for the events of its source around its time that pass one property filter. */
  function OneFilterQuery(b: Base, f: PropertyFilter): ListQuery {
    OpenQuery(b).(from := if b.eventTime == ZERO_TIME then -1 else b.eventTime,
                  to := if b.eventTime == -1 then 1 else b.eventTime + 1,
                  propertyFilters := [f], allowed := [Selector(f.scope, f.name)])
  }

  lemma OpenQueryFindsStored(policy: Policy, router: Router, conv: Conversion, stored: seq<Envelope>,
                             indexed: seq<Batch>, e: Envelope)
    requires AnsweredRight(policy, router, conv, stored, indexed, e)
    requires policy.maxFilters >= 0 && RouteOf(router)(e.base).Ok?
    ensures e in stored
  {
    var q := OpenQuery(e.base);
    var db := TablesExist(router, stored, indexed);
    assert FoundRight(policy, router, conv, q, db, e);
    QueryScopeMeans(policy, router, q);
    AnswerHas(router, q, stored, indexed, db, QueryScope(policy, router, q), e);
    assert Satisfies(conv, q, e);
  }

  lemma OneFilterValid(policy: Policy, router: Router, b: Base, f: PropertyFilter)
    requires policy.maxFilters >= 1 && policy.maxPropertyWindow >= 2 && RouteOf(router)(b).Ok?
    requires Accepted(f) && NormalizeSelector(f.scope, f.name).Some?
    ensures ValidQuery(policy, router, OneFilterQuery(b, f)) && InBounds(OneFilterQuery(b, f), b)
  {
    var q := OneFilterQuery(b, f);
    assert NormalizeSelector(q.allowed[0].scope, q.allowed[0].name) == Some(NormalizeSelector(f.scope, f.name).value);
    assert SelectorAllowed(policy, q, NormalizeSelector(f.scope, f.name).value);
  }

  lemma {:induction false} OneFilterReadsCopies(policy: Policy, router: Router, conv: Conversion,
                                                indexed: seq<Batch>, b: Base, f: PropertyFilter, table: string)
    requires AllFlatten(conv, indexed) && RouteOf(router)(b) == Ok(table) && Accepted(f) && InBounds(OneFilterQuery(b, f), b)
    ensures Matches(OneFilterQuery(b, f), IndexedRows(RouteOf(router), indexed, table, |indexed|), b) <==> SomeCopy(conv, indexed, b, f)
  {
    RouteByKey(router);
    IndexSeesOwnCopies(RouteOf(router), conv, indexed, table, b, f);
    assert OneFilterQuery(b, f).propertyFilters[0] == f;
  }

  lemma OneFilterSatisfied(conv: Conversion, e: Envelope, f: PropertyFilter)
    requires InBounds(OneFilterQuery(e.base, f), e.base)
    ensures Satisfies(conv, OneFilterQuery(e.base, f), e) <==> OwnMatches(conv, e, f)
  {
    assert OneFilterQuery(e.base, f).propertyFilters[0] == f;
  }

  lemma OneFilterFindsCopies(policy: Policy, router: Router, conv: Conversion, stored: seq<Envelope>,
                             indexed: seq<Batch>, e: Envelope, f: PropertyFilter)
    requires AnsweredRight(policy, router, conv, stored, indexed, e) && e in stored && AllFlatten(conv, indexed)
    requires policy.maxFilters >= 1 && policy.maxPropertyWindow >= 2 && RouteOf(router)(e.base).Ok?
    requires Accepted(f) && NormalizeSelector(f.scope, f.name).Some?
    ensures SomeCopy(conv, indexed, e.base, f) <==> OwnMatches(conv, e, f)
  {
    var q := OneFilterQuery(e.base, f);
    var db := TablesExist(router, stored, indexed);
    OneFilterValid(policy, router, e.base, f);
    assert FoundRight(policy, router, conv, q, db, e);
    QueryScopeMeans(policy, router, q);
    AnswerHas(router, q, stored, indexed, db, QueryScope(policy, router, q), e);
    OneFilterReadsCopies(policy, router, conv, indexed, e.base, f, PropertyTableName(QueryScope(policy, router, q).table));
    OneFilterSatisfied(conv, e, f);
  }

  /** Exactly when an event is answered right: its own row is stored, and the property batches
      under its key hold its own reachable values. */
  lemma AnsweredRightIffRecorded(policy: Policy, router: Router, conv: Conversion, stored: seq<Envelope>,
                                 indexed: seq<Batch>, e: Envelope)
    requires policy.maxFilters >= 1 && policy.maxPropertyWindow >= 2 && RouteOf(router)(e.base).Ok?
    requires AllFlatten(conv, indexed) && Flatten(conv, e).Ok?
    ensures AnsweredRight(policy, router, conv, stored, indexed, e) <==> e in stored && CopiesAgree(conv, indexed, e)
  {
    if AnsweredRight(policy, router, conv, stored, indexed, e) {
      OpenQueryFindsStored(policy, router, conv, stored, indexed, e);
      forall f | Accepted(f) && NormalizeSelector(f.scope, f.name).Some?
        ensures SomeCopy(conv, indexed, e.base, f) <==> OwnMatches(conv, e, f)
      {
        OneFilterFindsCopies(policy, router, conv, stored, indexed, e, f);
      }
      FaithfulIffCopiesAgree(conv, indexed, e);
    }
    if e in stored && CopiesAgree(conv, indexed, e) {
      forall q, db | ValidQuery(policy, router, q) && Serves(router, stored, indexed, db) ensures FoundRight(policy, router, conv, q, db, e) {
        QueryScopeMeans(policy, router, q);
        AnswerHasStored(policy, router, conv, q, stored, indexed, db, QueryScope(policy, router, q), e);
      }
    }
  }

  // --------------------------------------------------------------- end to end

  /** In every reachable state: an event whose offset is committed and not dead-lettered, and
      whose key was not reused for other content, is in the answer of a valid query exactly if
      its own fields and property maps satisfy the query, on any tables that hold what the run
      has appended so far. */
  lemma CommittedEventsAreAnswered(c: EndToEnd.Config, ss: seq<EndToEnd.System>, trs: seq<Trace>, i: nat, offset: int,
                                   policy: Policy, router: Router, q: ListQuery, db: Database)
    requires TracedRun(c, ss, trs) && i < |ss|
    requires offset in c.log && offset < ss[i].delivery.committed && offset !in ss[i].delivery.deadLettered
    requires c.log[offset].Carries? ==> KeyNotReused(c, c.log[offset].envelope)
    requires ValidQuery(policy, router, q) && Serves(router, trs[i].stored, trs[i].indexed, db)
    ensures c.log[offset].Carries? && WellBound(QueryScope(policy, router, q))
    ensures c.log[offset].envelope in Answer(db, QueryScope(policy, router, q)) <==> Satisfies(c.conv, q, c.log[offset].envelope)
  {
    EndToEnd.CommittedIsDurableOrDeadLettered(c, ss, i);
    TracedRunKeepsInv(c, ss, trs, i);
    JobIsSourced(c, offset);
    DurableIsRecorded(c, ss[i], trs[i], offset);
    AppendsFlatten(c, trs[i]);
    QueryScopeMeans(policy, router, q);
    AnswerHasStored(policy, router, c.conv, q, trs[i].stored, trs[i].indexed, db, QueryScope(policy, router, q), c.log[offset].envelope);
  }
}
