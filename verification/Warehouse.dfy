/** The ClickHouse tables as the writers fill them. */
module Warehouse {
  import opened Prelude
  import opened Events
  import opened TableRouting
  import opened EventQuery
  import opened PropertyWriter
  import opened PropertyIndex
  import opened QueryAnswers

  /** Whether a property map can be written as JSON text: the encoder is a parameter. */
  type Encoder = map<string, RawValue> -> bool

  datatype StoreError = Unflattened(value: FlattenError) | Unwritten(error: WriteError)

  /** There is nothing to send, or every row is complete and the table of the event is up. */
  predicate Sendable(router: Router, b: Base, rows: seq<Record>, down: set<string>) {
    rows == [] || (AllWritable(RouteRecords(router), rows, |rows|) && RouteOf(router)(b).Ok? && RouteOf(router)(b).value !in down)
  }

  lemma SendableIffUp(router: Router, b: Base, rows: seq<Record>, targets: set<string>, down: set<string>)
    requires forall r | r in rows :: r.base == b
    requires AllWritable(RouteRecords(router), rows, |rows|) && Targets(RouteRecords(router), rows, targets, |rows|)
    ensures targets !! down <==> Sendable(router, b, rows, down)
  {
    if rows != [] {
      assert Writable(RouteRecords(router), rows[0]) && rows[0] in rows;
      forall t ensures t in targets <==> RouteOf(router)(b) == Ok(t) {
        assert RouteRecords(router)(rows[0]) == RouteOf(router)(b);
        assert forall i | 0 <= i < |rows| :: rows[i] in rows && RouteRecords(router)(rows[i]) == RouteOf(router)(b);
      }
    }
  }

  /** A call of the property writer on one event's rows keeps the tables and the index in step. */
  lemma BatchServes(router: Router, stored: seq<Envelope>, indexed: seq<Batch>, db: Database, batch: Batch,
                    tables: map<string, seq<Record>>, after: Database, targets: set<string>, sent: set<string>, ok: bool)
    requires Serves(router, stored, indexed, db) && after == Database(db.events, tables)
    requires forall r | r in batch.rows :: r.base == batch.event.base
    requires var route := RouteRecords(router);
             if AllWritable(route, batch.rows, |batch.rows|)
             then Targets(route, batch.rows, targets, |batch.rows|) && sent <= targets && Received(route, batch.rows, db.properties, tables, sent)
                  && (ok <==> sent == targets)
             else tables == db.properties && !ok
    ensures Serves(router, stored, if ok && batch.rows != [] then indexed + [batch] else indexed, after)
  {
    ServesHoldsIndex(router, stored, indexed, db);
    var route, b := RouteRecords(router), batch.event.base;
    var now := if ok && batch.rows != [] then indexed + [batch] else indexed;
    assert HoldsIndex(RouteOf(router), now, tables) by {
      if AllWritable(route, batch.rows, |batch.rows|) && batch.rows != [] {
        assert Writable(route, batch.rows[0]) && batch.rows[0] in batch.rows;
        var table := RouteOf(router)(b).value;
        forall r | r in batch.rows ensures route(r) == Ok(table) {
          assert r.base == b;
        }
        WriteExtendsIndex(RouteOf(router), route, indexed, batch, table, db.properties, tables, targets, sent);
      } else if batch.rows == [] {
        forall t ensures RowsOf(tables, t) == IndexedRows(RouteOf(router), indexed, t, |indexed|) {
          assert RowsOf(db.properties, t) == IndexedRows(RouteOf(router), indexed, t, |indexed|);
        }
      }
    }
    IndexServes(router, stored, indexed, db, now, after);
  }

  /** What a call of the property writer has done and reports. */
  ghost predicate Outcome(route: Route, records: seq<Record>, before: map<string, seq<Record>>, after: map<string, seq<Record>>,
                          targets: set<string>, sent: set<string>, down: set<string>, ok: bool) {
    if AllWritable(route, records, |records|)
    then
      && Targets(route, records, targets, |records|) && sent <= targets && sent !! down
      && Received(route, records, before, after, sent)
      && (ok <==> targets !! down) && (ok ==> sent == targets)
    else after == before && !ok
  }

  /** Writing the rows of one event keeps tables and index in step, and succeeds exactly when they
      can be sent. */
  lemma EventRowsServe(router: Router, stored: seq<Envelope>, indexed: seq<Batch>, db: Database, conv: Conversion, e: Envelope, rows: seq<Record>,
                       after: Database, targets: set<string>, sent: set<string>, down: set<string>, ok: bool)
    requires Serves(router, stored, indexed, db) && after.events == db.events && Flatten(conv, e) == Ok(rows)
    requires Outcome(RouteRecords(router), rows, db.properties, after.properties, targets, sent, down, ok)
    ensures Serves(router, stored, if ok && rows != [] then indexed + [Batch(e, rows)] else indexed, after)
    ensures ok <==> Sendable(router, e.base, rows, down)
  {
    FlattenedRowsShareBase(conv, e);
    if AllWritable(RouteRecords(router), rows, |rows|) {
      SendableIffUp(router, e.base, rows, targets, down);
      assert ok <==> sent == targets;
    }
    BatchServes(router, stored, indexed, db, Batch(e, rows), after.properties, after, targets, sent, ok);
  }

  /** Event tables, and the property batch writer with its tables. `stored` and `indexed` record
      the appends that took effect. */
  class Tables {
    const router: Router
    const encodes: Encoder
    const properties: PropertyBatchWriter
    var events: map<string, seq<Envelope>>
    ghost var stored: seq<Envelope>
    ghost var indexed: seq<Batch>

    function Db(): Database
      reads this`events, properties`tables
    {
      Database(events, properties.tables)
    }

    /** The tables hold exactly what was appended, each row in the table of its own key. */
    ghost predicate Valid()
      reads this, properties
    {
      properties.router == router && Serves(router, stored, indexed, Db())
    }

    constructor (router: Router, encodes: Encoder)
      ensures this.router == router && this.encodes == encodes && fresh(properties) && Valid() && stored == [] && indexed == []
    {
      this.router := router;
      this.encodes := encodes;
      properties := new PropertyBatchWriter(router);
      events, stored, indexed := map[], [], [];
    }

    /** The append of a claimed event: routed by its key, both property maps encoded, all or nothing. */
    method AppendEvent(e: Envelope, down: set<string>) returns (ok: bool)
      requires Valid()
      modifies this
      ensures Valid() && indexed == old(indexed)
      ensures var route := RouteKey(router, e.base.tenantId, e.base.projectId, e.base.sourceId);
              ok <==> route.Ok? && encodes(e.properties) && encodes(e.userProps) && route.value !in down
      ensures stored == if ok then old(stored) + [e] else old(stored)
    {
      var route := RouteKey(router, e.base.tenantId, e.base.projectId, e.base.sourceId);
      if route.Err? {
        return false;
      }
      if !encodes(e.properties) || !encodes(e.userProps) {
        return false;
      }
      if route.value in down {
        return false;
      }
      ghost var before := Db();
      events := events[route.value := (if route.value in events then events[route.value] else []) + [e]];
      AppendServes(router, stored, indexed, before, e, route.value, Db());
      stored := stored + [e];
      return true;
    }

    /** The property batch of one event: its flattened rows are written all or not at all. */
    method AppendProperties(conv: Conversion, e: Envelope, down: set<string>) returns (r: Result<nat, StoreError>)
      requires Valid()
      modifies this, properties
      ensures Valid() && stored == old(stored)
      ensures r.Ok? ==> Flatten(conv, e).Ok? && r.value == |Flatten(conv, e).value|
      ensures indexed == if r.Ok? && r.value > 0 then old(indexed) + [Batch(e, Flatten(conv, e).value)] else old(indexed)
      ensures r.Ok? <==> Flatten(conv, e).Ok? && Sendable(router, e.base, Flatten(conv, e).value, down)
    {
      var rows := FlattenEventProperties(conv, e);
      if rows.Err? {
        return Err(Unflattened(rows.error));
      }
      r := SendRows(conv, e, rows.value, down);
    }

    /** The rows of an event that flattened, handed to the property writer. */
    method SendRows(conv: Conversion, e: Envelope, rows: seq<Record>, down: set<string>) returns (r: Result<nat, StoreError>)
      requires Valid() && Flatten(conv, e) == Ok(rows)
      modifies this, properties
      ensures Valid() && stored == old(stored)
      ensures r.Ok? ==> r.value == |rows|
      ensures indexed == if r.Ok? && rows != [] then old(indexed) + [Batch(e, rows)] else old(indexed)
      ensures r.Ok? <==> Sendable(router, e.base, rows, down)
    {
      ghost var before := Db();
      var written, targets, sent := properties.WriteEventProperties(rows, down);
      EventRowsServe(router, stored, indexed, before, conv, e, rows, Db(), targets, sent, down, written.Ok?);
      indexed := if written.Ok? && rows != [] then indexed + [Batch(e, rows)] else indexed;
      return if written.Ok? then Ok(written.value) else Err(Unwritten(written.error));
    }
  }
}
