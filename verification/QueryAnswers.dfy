/** What compiled queries return on the tables the writers fill. */
module QueryAnswers {
  import opened Prelude
  import opened Events
  import opened TableRouting
  import opened EventQuery
  import opened QueryCompilation
  import opened QueryBuilder
  import opened PropertyIndex
  import PropertyWriter

  /** The rows of an event table after the first `n` event appends. */
  function TableEvents(router: Router, stored: seq<Envelope>, table: string, n: nat): seq<Envelope>
    requires n <= |stored|
  {
    if n == 0 then []
    else
      var sofar := TableEvents(router, stored, table, n - 1);
      var b := stored[n - 1].base;
      if RouteKey(router, b.tenantId, b.projectId, b.sourceId) == Ok(table) then sofar + [stored[n - 1]] else sofar
  }

  /** Tables filled by appending events and property batches, each routed by its own key. */
  ghost predicate Serves(router: Router, stored: seq<Envelope>, indexed: seq<Batch>, db: Database) {
    && (forall t :: EventRows(db, t) == TableEvents(router, stored, t, |stored|))
    && (forall t :: PropertyRows(db, t) == IndexedRows(RouteOf(router), indexed, t, |indexed|))
  }

  lemma {:induction false} EarlierEvents(router: Router, stored: seq<Envelope>, e: Envelope, table: string, n: nat)
    requires n <= |stored|
    ensures TableEvents(router, stored + [e], table, n) == TableEvents(router, stored, table, n)
  {
    if n > 0 {
      EarlierEvents(router, stored, e, table, n - 1);
    }
  }

  /** A routed append of an event keeps the tables and the appended events in step. */
  lemma AppendServes(router: Router, stored: seq<Envelope>, indexed: seq<Batch>, db: Database, e: Envelope, table: string, after: Database)
    requires Serves(router, stored, indexed, db)
    requires RouteKey(router, e.base.tenantId, e.base.projectId, e.base.sourceId) == Ok(table)
    requires after.properties == db.properties && after.events == db.events[table := EventRows(db, table) + [e]]
    ensures Serves(router, stored + [e], indexed, after)
  {
    forall t ensures EventRows(after, t) == TableEvents(router, stored + [e], t, |stored| + 1) {
      EarlierEvents(router, stored, e, t, |stored|);
      assert EventRows(db, t) == TableEvents(router, stored, t, |stored|);
    }
    forall t ensures PropertyRows(after, t) == IndexedRows(RouteOf(router), indexed, t, |indexed|) {
      assert PropertyRows(db, t) == IndexedRows(RouteOf(router), indexed, t, |indexed|);
    }
  }

  /** Tables that hold an index serve it. */
  lemma IndexServes(router: Router, stored: seq<Envelope>, indexed: seq<Batch>, db: Database, now: seq<Batch>, after: Database)
    requires Serves(router, stored, indexed, db) && after.events == db.events
    requires HoldsIndex(RouteOf(router), now, after.properties)
    ensures Serves(router, stored, now, after)
  {
    forall t ensures EventRows(after, t) == TableEvents(router, stored, t, |stored|) {
      assert EventRows(db, t) == TableEvents(router, stored, t, |stored|);
    }
    forall t ensures PropertyRows(after, t) == IndexedRows(RouteOf(router), now, t, |now|) {
      assert PropertyWriter.RowsOf(after.properties, t) == IndexedRows(RouteOf(router), now, t, |now|);
    }
  }

  lemma ServesHoldsIndex(router: Router, stored: seq<Envelope>, indexed: seq<Batch>, db: Database)
    requires Serves(router, stored, indexed, db)
    ensures HoldsIndex(RouteOf(router), indexed, db.properties)
  {
    forall t ensures PropertyWriter.RowsOf(db.properties, t) == IndexedRows(RouteOf(router), indexed, t, |indexed|) {
      assert PropertyRows(db, t) == IndexedRows(RouteOf(router), indexed, t, |indexed|);
    }
  }

  /** The selected rows among the first `n`, in table order. */
  function SelectedRows(db: Database, s: Scope, rows: seq<Envelope>, n: nat): seq<Envelope>
    requires WellBound(s) && n <= |rows|
  {
    if n == 0 then []
    else
      var sofar := SelectedRows(db, s, rows, n - 1);
      if Selects(db, rows[n - 1], s) then sofar + [rows[n - 1]] else sofar
  }

  function Answer(db: Database, s: Scope): seq<Envelope>
    requires WellBound(s)
  {
    SelectedRows(db, s, EventRows(db, s.table), |EventRows(db, s.table)|)
  }

  /** The stored events the query asks for, over all tenants and tables. */
  function Wanted(conv: Conversion, q: ListQuery, stored: seq<Envelope>, n: nat): seq<Envelope>
    requires n <= |stored|
  {
    if n == 0 then []
    else
      var sofar := Wanted(conv, q, stored, n - 1);
      if Satisfies(conv, q, stored[n - 1]) then sofar + [stored[n - 1]] else sofar
  }

  /** For every stored event the query could reach by property, the batches of its key agree with it. */
  ghost predicate Faithful(conv: Conversion, q: ListQuery, stored: seq<Envelope>, indexed: seq<Batch>) {
    q.propertyFilters != [] ==>
      forall i | 0 <= i < |stored| :: OwnedBy(q, stored[i].base) ==> CopiesAgree(conv, indexed, stored[i])
  }

  lemma RouteByKey(router: Router)
    ensures ByKey(RouteOf(router))
  {
  }

  /** On the tables the writers fill, the direct reading of the query against index rows and its
      reading against the event's own maps coincide. */
  lemma {:induction false} IndexReadsMaps(policy: Policy, router: Router, conv: Conversion, q: ListQuery, e: Envelope,
                                          indexed: seq<Batch>, propertyTable: string)
    requires ValidQuery(policy, router, q) && OwnedBy(q, e.base) && AllFlatten(conv, indexed)
    requires q.propertyFilters != [] ==> CopiesAgree(conv, indexed, e)
    requires propertyTable == PropertyTableName(RouteKey(router, q.tenantId, q.projectId, q.sourceId).value)
    ensures Matches(q, IndexedRows(RouteOf(router), indexed, propertyTable, |indexed|), e.base) <==> Satisfies(conv, q, e)
  {
    var rows := IndexedRows(RouteOf(router), indexed, propertyTable, |indexed|);
    RouteByKey(router);
    forall i | 0 <= i < |q.propertyFilters|
      ensures IndexMatches(rows, e.base, q.propertyFilters[i]) <==> OwnMatches(conv, e, q.propertyFilters[i])
    {
      var f := q.propertyFilters[i];
      assert ValidPropertyFilter(policy, q, f);
      IndexSeesOwnCopies(RouteOf(router), conv, indexed, propertyTable, e.base, f);
      CopiesAgreeSuffices(conv, indexed, e, f);
    }
  }

  lemma {:induction false} ReadsEither(policy: Policy, router: Router, conv: Conversion, q: ListQuery, e: Envelope, indexed: seq<Batch>, propertyTable: string)
    requires ValidQuery(policy, router, q) && AllFlatten(conv, indexed)
    requires q.propertyFilters != [] && OwnedBy(q, e.base) ==> CopiesAgree(conv, indexed, e)
    requires propertyTable == PropertyTableName(RouteKey(router, q.tenantId, q.projectId, q.sourceId).value)
    ensures Matches(q, IndexedRows(RouteOf(router), indexed, propertyTable, |indexed|), e.base) <==> Satisfies(conv, q, e)
  {
    if OwnedBy(q, e.base) {
      IndexReadsMaps(policy, router, conv, q, e, indexed, propertyTable);
    }
  }

  lemma {:induction false} SelectedAreWanted(router: Router, conv: Conversion, q: ListQuery, stored: seq<Envelope>, db: Database, s: Scope, n: nat)
    requires n <= |stored| && WellBound(s)
    requires RouteKey(router, q.tenantId, q.projectId, q.sourceId) == Ok(s.table)
    requires forall i | 0 <= i < |stored| :: Selects(db, stored[i], s) <==> Satisfies(conv, q, stored[i])
    ensures var rows := TableEvents(router, stored, s.table, n);
            SelectedRows(db, s, rows, |rows|) == Wanted(conv, q, stored, n)
  {
    if n > 0 {
      SelectedAreWanted(router, conv, q, stored, db, s, n - 1);
      var e, before := stored[n - 1], TableEvents(router, stored, s.table, n - 1);
      if RouteKey(router, e.base.tenantId, e.base.projectId, e.base.sourceId) == Ok(s.table) {
        SelectedPrefix(db, s, before, e, |before|);
      }
    }
  }

  lemma {:induction false} SelectedPrefix(db: Database, s: Scope, rows: seq<Envelope>, e: Envelope, n: nat)
    requires WellBound(s) && n <= |rows|
    ensures SelectedRows(db, s, rows + [e], n) == SelectedRows(db, s, rows, n)
  {
    if n > 0 {
      SelectedPrefix(db, s, rows, e, n - 1);
    }
  }

  /** The answer of a valid query is exactly the stored events that satisfy it, in storage
      order, whatever other tenants share the physical tables. */
  lemma {:induction false} AnswerIsWanted(policy: Policy, router: Router, conv: Conversion, q: ListQuery,
                                          stored: seq<Envelope>, indexed: seq<Batch>, db: Database, s: Scope)
    requires ValidQuery(policy, router, q) && Serves(router, stored, indexed, db)
    requires RouteKey(router, q.tenantId, q.projectId, q.sourceId) == Ok(s.table) && Means(s, q, PropertyTableName(s.table))
    requires AllFlatten(conv, indexed) && Faithful(conv, q, stored, indexed)
    ensures Answer(db, s) == Wanted(conv, q, stored, |stored|)
  {
    var rows := PropertyRows(db, PropertyTableName(s.table));
    assert rows == IndexedRows(RouteOf(router), indexed, PropertyTableName(s.table), |indexed|);
    forall i | 0 <= i < |stored| ensures Selects(db, stored[i], s) <==> Satisfies(conv, q, stored[i]) {
      ReadsEither(policy, router, conv, q, stored[i], indexed, PropertyTableName(s.table));
      assert Selects(db, stored[i], s) <==> Matches(q, rows, stored[i].base);
    }
    SelectedAreWanted(router, conv, q, stored, db, s, |stored|);
  }

  lemma {:induction false} TableHas(router: Router, stored: seq<Envelope>, table: string, n: nat, e: Envelope)
    requires n <= |stored|
    ensures e in TableEvents(router, stored, table, n) <==>
              RouteKey(router, e.base.tenantId, e.base.projectId, e.base.sourceId) == Ok(table) && exists i | 0 <= i < n :: stored[i] == e
  {
    if n > 0 {
      TableHas(router, stored, table, n - 1, e);
    }
  }

  lemma {:induction false} SelectedHas(db: Database, s: Scope, rows: seq<Envelope>, n: nat, e: Envelope)
    requires WellBound(s) && n <= |rows|
    ensures e in SelectedRows(db, s, rows, n) <==> Selects(db, e, s) && exists i | 0 <= i < n :: rows[i] == e
  {
    if n > 0 {
      SelectedHas(db, s, rows, n - 1, e);
    }
  }

  lemma {:induction false} AnswerSelects(router: Router, stored: seq<Envelope>, db: Database, s: Scope, e: Envelope)
    requires WellBound(s) && EventRows(db, s.table) == TableEvents(router, stored, s.table, |stored|)
    ensures e in Answer(db, s) <==>
              Selects(db, e, s) && e in stored && RouteKey(router, e.base.tenantId, e.base.projectId, e.base.sourceId) == Ok(s.table)
  {
    var rows := EventRows(db, s.table);
    SelectedHas(db, s, rows, |rows|, e);
    TableHas(router, stored, s.table, |stored|, e);
  }

  lemma MatchesAreOwned(q: ListQuery, rows: seq<Record>, b: Base)
    ensures Matches(q, rows, b) ==> b.tenantId == q.tenantId && b.projectId == q.projectId && b.sourceId == q.sourceId
  {
  }

  /** An event is in the answer exactly if it is stored and matches the query with the index rows
      of the property table. */
  lemma {:induction false} AnswerHas(router: Router, q: ListQuery, stored: seq<Envelope>, indexed: seq<Batch>, db: Database, s: Scope, e: Envelope)
    requires Serves(router, stored, indexed, db)
    requires RouteKey(router, q.tenantId, q.projectId, q.sourceId) == Ok(s.table) && Means(s, q, PropertyTableName(s.table))
    ensures e in Answer(db, s) <==>
              e in stored && Matches(q, IndexedRows(RouteOf(router), indexed, PropertyTableName(s.table), |indexed|), e.base)
  {
    var rows := IndexedRows(RouteOf(router), indexed, PropertyTableName(s.table), |indexed|);
    assert PropertyRows(db, PropertyTableName(s.table)) == rows;
    assert EventRows(db, s.table) == TableEvents(router, stored, s.table, |stored|);
    AnswerSelects(router, stored, db, s, e);
    MatchesAreOwned(q, rows, e.base);
    assert Selects(db, e, s) <==> Matches(q, PropertyRows(db, PropertyTableName(s.table)), e.base);
  }

  /** A stored event whose batches agree with it is in the answer exactly if it satisfies the query. */
  lemma AnswerHasStored(policy: Policy, router: Router, conv: Conversion, q: ListQuery, stored: seq<Envelope>, indexed: seq<Batch>,
                        db: Database, s: Scope, e: Envelope)
    requires ValidQuery(policy, router, q) && Serves(router, stored, indexed, db)
    requires RouteKey(router, q.tenantId, q.projectId, q.sourceId) == Ok(s.table) && Means(s, q, PropertyTableName(s.table))
    requires AllFlatten(conv, indexed) && CopiesAgree(conv, indexed, e) && e in stored
    ensures e in Answer(db, s) <==> Satisfies(conv, q, e)
  {
    ReadsEither(policy, router, conv, q, e, indexed, PropertyTableName(s.table));
    AnswerHas(router, q, stored, indexed, db, s, e);
  }
}
