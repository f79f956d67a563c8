/** The MySQL-backed catalog table: validated upserts and source-scoped reads. */
module CatalogTable {
  import opened Prelude
  import opened Ordering
  import opened Events
  import opened PropertyCatalog

  datatype CatalogQuery = CatalogQuery(tenantId: string, projectId: string, sourceId: string, scope: string, limit: int)

  datatype QueryError = InvalidQuery | InvalidRow(cause: CatalogError)

  predicate ValidQuery(q: CatalogQuery) {
    && q.tenantId != "" && q.projectId != "" && q.sourceId != ""
    && q.scope in {"", SCOPE_EVENT, SCOPE_USER}
    && q.limit >= 0
  }

  predicate Selected(q: CatalogQuery, k: CatalogKey) {
    && k.tenantId == q.tenantId && k.projectId == q.projectId && k.sourceId == q.sourceId
    && (q.scope == "" || k.scope == q.scope)
  }

  ghost predicate ValidRows(rows: map<CatalogKey, Window>) {
    forall k | k in rows :: ValidateEntry(Entry(k, rows[k])) == None
  }

  lemma UpsertKeepsValid(rows: map<CatalogKey, Window>, e: Entry)
    requires ValidRows(rows) && ValidateEntry(e) == None
    ensures ValidRows(Upsert(rows, e))
  {
    forall k | k in Upsert(rows, e) ensures ValidateEntry(Entry(k, Upsert(rows, e)[k])) == None {
      if k in rows {
        assert ValidateEntry(Entry(k, rows[k])) == None;
      }
    }
  }

  lemma {:induction false} UpsertAllKeepsValid(rows: map<CatalogKey, Window>, entries: seq<Entry>, n: nat)
    requires n <= |entries| && ValidRows(rows)
    requires forall i | 0 <= i < |entries| :: ValidateEntry(entries[i]) == None
    ensures ValidRows(UpsertFirst(rows, entries, n))
  {
    if n > 0 {
      UpsertAllKeepsValid(rows, entries, n - 1);
      UpsertKeepsValid(UpsertFirst(rows, entries, n - 1), entries[n - 1]);
    }
  }

  /** Exactly the queries with a complete source, a known scope or none, and no negative limit are valid. */
  lemma ValidQueryMeans(q: CatalogQuery)
    ensures ValidQuery(q) <==>
              q.tenantId != "" && q.projectId != "" && q.sourceId != "" && q.scope in ["", "event", "user"] && q.limit >= 0
  {
  }

  /** A query selects the keys of its own source, in its scope if it names one. */
  lemma SelectedMeans(q: CatalogQuery, k: CatalogKey)
    ensures Selected(q, k) <==>
              (k.tenantId, k.projectId, k.sourceId) == (q.tenantId, q.projectId, q.sourceId) && (q.scope == "" || k.scope == q.scope)
  {
  }

  /** The first entry at fault decides the error. */
  ghost predicate FirstInvalid(entries: seq<Entry>, error: CatalogError) {
    exists i | 0 <= i < |entries| ::
      ValidateEntry(entries[i]) == Some(error) && forall j | 0 <= j < i :: ValidateEntry(entries[j]) == None
  }

  class Table {
    var rows: map<CatalogKey, Window>

    constructor ()
      ensures rows == map[]
    {
      rows := map[];
    }

    /** Every entry is validated before anything is written, so one bad entry changes nothing. */
    method UpsertPropertyCatalogEntries(entries: seq<Entry>) returns (r: Result<nat, CatalogError>)
      requires ValidRows(rows)
      modifies this
      ensures ValidRows(rows)
      ensures r.Ok? <==> forall i | 0 <= i < |entries| :: ValidateEntry(entries[i]) == None
      ensures r.Ok? ==> rows == UpsertAll(old(rows), entries) && r.value == |entries|
      ensures r.Err? ==> rows == old(rows) && FirstInvalid(entries, r.error)
    {
      for i := 0 to |entries|
        invariant forall j | 0 <= j < i :: ValidateEntry(entries[j]) == None
        invariant rows == old(rows)
      {
        var invalid := ValidateEntry(entries[i]);
        if invalid.Some? {
          return Err(invalid.value);
        }
      }
      for i := 0 to |entries|
        invariant rows == UpsertFirst(old(rows), entries, i)
      {
        rows := Upsert(rows, entries[i]);
      }
      UpsertAllKeepsValid(old(rows), entries, |entries|);
      return Ok(|entries|);
    }

    /** The rows of `keys` as catalog entries; a stored row outside the contract fails the read. */
    method ReadRows(keys: seq<CatalogKey>) returns (r: Result<seq<Entry>, QueryError>)
      requires forall i | 0 <= i < |keys| :: keys[i] in rows
      ensures r.Ok? ==> Keys(r.value) == keys
      ensures r.Ok? ==> forall e | e in r.value :: e.key in rows && rows[e.key] == e.seen && ValidateEntry(e) == None
      ensures r.Ok? <==> forall i | 0 <= i < |keys| :: ValidateEntry(Entry(keys[i], rows[keys[i]])) == None
      ensures r.Err? ==> r.error.InvalidRow? && exists i | 0 <= i < |keys| :: ValidateEntry(Entry(keys[i], rows[keys[i]])) == Some(r.error.cause)
    {
      var entries: seq<Entry> := [];
      for i := 0 to |keys|
        invariant |entries| == i
        invariant forall j | 0 <= j < i :: entries[j] == Entry(keys[j], rows[keys[j]])
        invariant forall j | 0 <= j < i :: ValidateEntry(Entry(keys[j], rows[keys[j]])) == None
      {
        var entry := Entry(keys[i], rows[keys[i]]);
        var invalid := ValidateEntry(entry);
        if invalid.Some? {
          assert ValidateEntry(Entry(keys[i], rows[keys[i]])) != None;
          return Err(InvalidRow(invalid.value));
        }
        entries := entries + [entry];
      }
      return Ok(entries);
    }

    /** A read returns the selected rows in key order, cut at a positive limit: a row that was
        left out comes after every row that was returned. */
    method ListPropertyCatalogEntries(q: CatalogQuery) returns (r: Result<seq<Entry>, QueryError>)
      ensures !ValidQuery(q) ==> r == Err(InvalidQuery)
      ensures ValidQuery(q) && r.Err? ==> r.error.InvalidRow? && exists keys, k ::
                Answers(q, rows.Keys, keys) && k in keys && ValidateEntry(Entry(k, rows[k])) == Some(r.error.cause)
      ensures r.Ok? ==> forall e | e in r.value :: e.key in rows && rows[e.key] == e.seen && ValidateEntry(e) == None
      ensures r.Ok? ==> Answers(q, rows.Keys, Keys(r.value))
    {
      if !ValidQuery(q) {
        return Err(InvalidQuery);
      }
      var wanted := set k | k in rows && Selected(q, k);
      KeyOrder();
      var keys := SortKeys(KeyLess, wanted);
      var n := if 0 < q.limit < |keys| then q.limit else |keys|;
      CutAnswers(q, rows.Keys, keys, n);
      r := ReadRows(keys[..n]);
    }
  }

  /** The selected keys in order, cut at a positive limit; what is left out comes after what is returned. */
  ghost predicate Answers(q: CatalogQuery, stored: set<CatalogKey>, keys: seq<CatalogKey>) {
    && Sorted(KeyLess, keys)
    && (q.limit > 0 ==> |keys| <= q.limit)
    && (forall k | k in keys :: k in stored && Selected(q, k))
    && (forall k | k in stored && Selected(q, k) && k !in keys :: |keys| == q.limit > 0 && forall l | l in keys :: KeyLess(l, k))
  }

  lemma CutAnswers(q: CatalogQuery, stored: set<CatalogKey>, keys: seq<CatalogKey>, n: nat)
    requires Sorted(KeyLess, keys) && n == if 0 < q.limit < |keys| then q.limit else |keys|
    requires forall k :: k in keys <==> k in stored && Selected(q, k)
    ensures Answers(q, stored, keys[..n])
    ensures forall i | 0 <= i < |keys[..n]| :: keys[..n][i] in stored && Selected(q, keys[..n][i])
  {
    CutLeavesLarger(keys, n);
    assert keys[..|keys|] == keys;
  }

  lemma CutLeavesLarger(keys: seq<CatalogKey>, n: nat)
    requires Sorted(KeyLess, keys) && n <= |keys|
    ensures Sorted(KeyLess, keys[..n])
    ensures forall k, l | k in keys && k !in keys[..n] && l in keys[..n] :: KeyLess(l, k)
  {
    forall k, l | k in keys && k !in keys[..n] && l in keys[..n] ensures KeyLess(l, k) {
      var i :| 0 <= i < |keys| && keys[i] == k;
      var j :| 0 <= j < n && keys[..n][j] == l;
      assert forall m | 0 <= m < n :: keys[..n][m] == keys[m];
      assert i >= n;
    }
  }
}
