/** The property batch writer: records grouped by routed table, one native batch per table. */
module PropertyWriter {
  import opened Prelude
  import opened Events
  import opened TableRouting

  datatype WriteError =
    | MissingEventId | MissingScope | MissingName | MissingType
    | Unrouted(cause: RouteError)
    | BatchFailed(table: string)

  type Route = Record -> Result<string, RouteError>

  function RecordRoute(router: Router, r: Record): Result<string, RouteError> {
    PropertyRoute(router, r.base.tenantId, r.base.projectId, r.base.sourceId)
  }

  function RouteRecords(router: Router): Route {
    (r: Record) => RecordRoute(router, r)
  }

  function RecordError(r: Record): Option<WriteError> {
    if r.base.eventId == "" then Some(MissingEventId)
    else if r.scope == "" then Some(MissingScope)
    else if r.name == "" then Some(MissingName)
    else if r.valueType == "" then Some(MissingType)
    else None
  }

  predicate Writable(route: Route, r: Record) {
    RecordError(r).None? && route(r).Ok?
  }

  /** A row is complete exactly if it has an event id, a scope, a name and a type; the first one missing
      is reported. */
  lemma CompleteMeans(r: Record)
    ensures RecordError(r) == None <==> r.base.eventId != "" && r.scope != "" && r.name != "" && r.valueType != ""
    ensures RecordError(r) == Some(MissingEventId) <==> r.base.eventId == ""
    ensures RecordError(r) == Some(MissingScope) <==> r.base.eventId != "" && r.scope == ""
    ensures RecordError(r) == Some(MissingName) <==> r.base.eventId != "" && r.scope != "" && r.name == ""
    ensures RecordError(r) == Some(MissingType) <==> r.base.eventId != "" && r.scope != "" && r.name != "" && r.valueType == ""
  {
  }

  /** The first unwritable record decides the error. */
  ghost predicate FirstError(route: Route, records: seq<Record>, error: WriteError) {
    exists i | 0 <= i < |records| ::
      && (forall j | 0 <= j < i :: Writable(route, records[j]))
      && !Writable(route, records[i])
      && (if RecordError(records[i]).Some? then RecordError(records[i]) == Some(error)
          else route(records[i]).Err? && error == Unrouted(route(records[i]).error))
  }

  predicate AllWritable(route: Route, records: seq<Record>, n: nat)
    requires n <= |records|
  {
    forall i | 0 <= i < n :: Writable(route, records[i])
  }

  /** The records of one table among the first `n`, in order. */
  function Group(route: Route, records: seq<Record>, table: string, n: nat): seq<Record>
    requires n <= |records|
  {
    if n == 0 then []
    else
      var sofar := Group(route, records, table, n - 1);
      if route(records[n - 1]) == Ok(table) then sofar + [records[n - 1]] else sofar
  }

  /** How many of the first `n` records go to one of the tables. */
  function Routed(route: Route, records: seq<Record>, tables: set<string>, n: nat): nat
    requires n <= |records|
  {
    if n == 0 then 0
    else
      var target := route(records[n - 1]);
      Routed(route, records, tables, n - 1) + if target.Ok? && target.value in tables then 1 else 0
  }

  lemma {:induction false} RoutedOneMoreTable(route: Route, records: seq<Record>, tables: set<string>, table: string, n: nat)
    requires n <= |records| && table !in tables
    ensures Routed(route, records, tables + {table}, n) == Routed(route, records, tables, n) + |Group(route, records, table, n)|
  {
    if n > 0 {
      RoutedOneMoreTable(route, records, tables, table, n - 1);
    }
  }

  /** The groups together hold every record exactly once. */
  lemma {:induction false} AllRouted(route: Route, records: seq<Record>, tables: set<string>, n: nat)
    requires n <= |records|
    requires forall i | 0 <= i < n :: route(records[i]).Ok? && route(records[i]).value in tables
    ensures Routed(route, records, tables, n) == n
  {
    if n > 0 {
      AllRouted(route, records, tables, n - 1);
    }
  }

  lemma {:induction false} NoneRouted(route: Route, records: seq<Record>, n: nat)
    requires n <= |records|
    ensures Routed(route, records, {}, n) == 0
  {
    if n > 0 {
      NoneRouted(route, records, n - 1);
    }
  }

  function RowsOf(tables: map<string, seq<Record>>, table: string): seq<Record> {
    if table in tables then tables[table] else []
  }

  /** Exactly the tables in `sent` received their group. */
  ghost predicate Received(route: Route, records: seq<Record>, before: map<string, seq<Record>>, after: map<string, seq<Record>>, sent: set<string>) {
    forall t :: RowsOf(after, t) == if t in sent then RowsOf(before, t) + Group(route, records, t, |records|) else RowsOf(before, t)
  }

  lemma {:induction false} GroupOf(route: Route, records: seq<Record>, groups: map<string, seq<Record>>, table: string)
    requires Grouped(route, records, groups, |records|) && table in groups
    ensures groups[table] == Group(route, records, table, |records|)
  {
    assert RowsOf(groups, table) == Group(route, records, table, |records|);
  }

  lemma {:induction false} AllSent(route: Route, records: seq<Record>, groups: map<string, seq<Record>>, sent: set<string>)
    requires Grouped(route, records, groups, |records|) && AllWritable(route, records, |records|)
    requires forall t :: t in groups.Keys <==> t in sent
    ensures sent == groups.Keys && Routed(route, records, sent, |records|) == |records|
  {
    forall i | 0 <= i < |records| ensures route(records[i]).Ok? && route(records[i]).value in sent {
      assert Writable(route, records[i]);
      assert route(records[i]) == Ok(route(records[i]).value);
    }
    AllRouted(route, records, sent, |records|);
  }

  lemma {:induction false} ReceivedOneMore(route: Route, records: seq<Record>, before: map<string, seq<Record>>, mid: map<string, seq<Record>>,
                        after: map<string, seq<Record>>, sent: set<string>, table: string)
    requires Received(route, records, before, mid, sent) && table !in sent
    requires RowsOf(after, table) == RowsOf(mid, table) + Group(route, records, table, |records|)
    requires forall t | t != table :: RowsOf(after, t) == RowsOf(mid, t)
    ensures Received(route, records, before, after, sent + {table})
  {
  }

  ghost predicate Targets(route: Route, records: seq<Record>, targets: set<string>, n: nat)
    requires n <= |records|
  {
    forall t :: t in targets <==> exists i | 0 <= i < n :: route(records[i]) == Ok(t)
  }

  ghost predicate Grouped(route: Route, records: seq<Record>, groups: map<string, seq<Record>>, n: nat)
    requires n <= |records|
  {
    && (forall t :: RowsOf(groups, t) == Group(route, records, t, n))
    && Targets(route, records, groups.Keys, n)
  }

  lemma GroupedOneMore(route: Route, records: seq<Record>, groups: map<string, seq<Record>>, table: string, n: nat)
    requires n < |records| && Grouped(route, records, groups, n) && route(records[n]) == Ok(table)
    ensures Grouped(route, records, groups[table := RowsOf(groups, table) + [records[n]]], n + 1)
  {
    var after := groups[table := RowsOf(groups, table) + [records[n]]];
    forall t ensures RowsOf(after, t) == Group(route, records, t, n + 1) {
      assert RowsOf(groups, t) == Group(route, records, t, n);
    }
    forall t ensures t in after <==> exists i | 0 <= i < n + 1 :: route(records[i]) == Ok(t) {
      assert t in groups <==> exists i | 0 <= i < n :: route(records[i]) == Ok(t);
    }
  }

  lemma FirstUnwritable(route: Route, records: seq<Record>, i: nat, error: WriteError)
    requires i < |records| && AllWritable(route, records, i) && !Writable(route, records[i])
    requires if RecordError(records[i]).Some? then RecordError(records[i]) == Some(error)
             else route(records[i]).Err? && error == Unrouted(route(records[i]).error)
    ensures !AllWritable(route, records, |records|) && FirstError(route, records, error)
  {
  }

  lemma EmptyGroups(route: Route, records: seq<Record>)
    ensures Grouped(route, records, map[], 0) && AllWritable(route, records, 0)
  {
  }

  method GroupRecords(route: Route, records: seq<Record>) returns (r: Result<map<string, seq<Record>>, WriteError>)
    ensures r.Ok? <==> AllWritable(route, records, |records|)
    ensures r.Ok? ==> Grouped(route, records, r.value, |records|)
    ensures r.Err? ==> !r.error.BatchFailed? && FirstError(route, records, r.error)
  {
    var groups: map<string, seq<Record>> := map[];
    EmptyGroups(route, records);
    for i := 0 to |records|
      invariant AllWritable(route, records, i)
      invariant Grouped(route, records, groups, i)
    {
      var error := RecordError(records[i]);
      if error.Some? {
        FirstUnwritable(route, records, i, error.value);
        return Err(error.value);
      }
      var target := route(records[i]);
      if target.Err? {
        FirstUnwritable(route, records, i, Unrouted(target.error));
        return Err(Unrouted(target.error));
      }
      GroupedOneMore(route, records, groups, target.value, i);
      groups := groups[target.value := RowsOf(groups, target.value) + [records[i]]];
    }
    return Ok(groups);
  }

  class PropertyBatchWriter {
    const router: Router
    var tables: map<string, seq<Record>>

    constructor (router: Router)
      ensures this.router == router && tables == map[]
    {
      this.router := router;
      tables := map[];
    }

    /** One batch: all of its rows or none of them. */
    method WritePropertyGroup(table: string, records: seq<Record>, down: set<string>) returns (ok: bool)
      modifies this
      ensures ok <==> table !in down
      ensures ok ==> RowsOf(tables, table) == RowsOf(old(tables), table) + records
      ensures ok ==> forall t | t != table :: RowsOf(tables, t) == RowsOf(old(tables), t)
      ensures !ok ==> tables == old(tables)
    {
      ok := table !in down;
      if ok {
        tables := tables[table := RowsOf(tables, table) + records];
      }
    }

    /** One batch per table, in an arbitrary order of the tables, until one fails. */
    method SendGroups(route: Route, records: seq<Record>, groups: map<string, seq<Record>>, down: set<string>)
      returns (r: Result<nat, WriteError>, ghost sent: set<string>)
      requires Grouped(route, records, groups, |records|) && AllWritable(route, records, |records|)
      modifies this
      ensures sent <= groups.Keys && sent !! down
      ensures Received(route, records, old(tables), tables, sent)
      ensures r.Ok? <==> groups.Keys !! down
      ensures r.Ok? ==> r.value == |records| && sent == groups.Keys
      ensures r.Err? ==> r.error.BatchFailed? && r.error.table in groups && r.error.table in down
    {
      sent := {};
      var written := 0;
      var rest := groups.Keys;
      NoneRouted(route, records, |records|);
      while rest != {}
        invariant forall t :: t in groups.Keys <==> t in rest || t in sent
        invariant forall t :: t in sent ==> t !in rest && t !in down
        invariant Received(route, records, old(tables), tables, sent)
        invariant written == Routed(route, records, sent, |records|)
        decreases rest
      {
        var table :| table in rest;
        ghost var mid := tables;
        GroupOf(route, records, groups, table);
        var ok := WritePropertyGroup(table, groups[table], down);
        if !ok {
          return Err(BatchFailed(table)), sent;
        }
        ReceivedOneMore(route, records, old(tables), mid, tables, sent, table);
        RoutedOneMoreTable(route, records, sent, table, |records|);
        written := written + |groups[table]|;
        sent := sent + {table};
        rest := rest - {table};
      }
      AllSent(route, records, groups, sent);
      return Ok(written), sent;
    }

    /** `down` are the tables whose batch would fail. An unwritable record stops the call before
        anything is sent. Otherwise the tables that were sent to received exactly their group in
        order; the call succeeds, and then reports every record as written, exactly when no
        target is down. */
    method WriteEventProperties(records: seq<Record>, down: set<string>)
      returns (r: Result<nat, WriteError>, ghost targets: set<string>, ghost sent: set<string>)
      modifies this
      ensures var route := RouteRecords(router);
              && sent !! down
              && Received(route, records, old(tables), tables, sent)
              && (!AllWritable(route, records, |records|) ==> r.Err? && FirstError(route, records, r.error) && tables == old(tables))
              && (AllWritable(route, records, |records|) ==>
                    && Targets(route, records, targets, |records|) && sent <= targets
                    && (r.Ok? <==> targets !! down)
                    && (r.Ok? ==> r.value == |records| && sent == targets))
    {
      var route := RouteRecords(router);
      sent, targets := {}, {};
      if |records| == 0 {
        return Ok(0), targets, sent;
      }
      var groups := GroupRecords(route, records);
      if groups.Err? {
        return Err(groups.error), targets, sent;
      }
      r, sent := SendGroups(route, records, groups.value, down);
      targets := groups.value.Keys;
    }
  }

  // ---------------------------------------------------- the rows of one event

  lemma {:induction false} SingleGroup(route: Route, records: seq<Record>, table: string, n: nat)
    requires n <= |records| && forall i | 0 <= i < n :: route(records[i]) == Ok(table)
    ensures Group(route, records, table, n) == records[..n]
  {
    if n > 0 {
      SingleGroup(route, records, table, n - 1);
    }
  }

  /** Rows of one routing key share a table, so a call with them is all or nothing: this is
      what lets the guarded writers treat a failed append as nothing written. */
  lemma OneSourceIsAtomic(route: Route, records: seq<Record>, table: string,
                          before: map<string, seq<Record>>, after: map<string, seq<Record>>, targets: set<string>, sent: set<string>)
    requires forall i | 0 <= i < |records| :: route(records[i]) == Ok(table)
    requires Targets(route, records, targets, |records|) && sent <= targets && Received(route, records, before, after, sent)
    ensures sent == targets || forall t :: RowsOf(after, t) == RowsOf(before, t)
    ensures sent == targets ==> RowsOf(after, table) == RowsOf(before, table) + records
    ensures forall t | t != table :: RowsOf(after, t) == RowsOf(before, t)
  {
    SingleGroup(route, records, table, |records|);
    assert records[..|records|] == records;
    assert forall t | t in targets :: t == table;
    if records != [] {
      assert route(records[0]) == Ok(table);
      if sent != targets {
        assert sent == {};
      }
    }
  }
}
