/** The property catalog: batches of typed rows condensed into dictionary entries, and the
    upsert that widens each stored observation window. */
module PropertyCatalog {
  import opened Prelude
  import opened Ordering
  import opened Events

  datatype CatalogKey = CatalogKey(
    tenantId: string, projectId: string, sourceId: string, scope: string, name: string, valueType: string)
  {
    predicate Less(other: CatalogKey) {
      if tenantId != other.tenantId then StringLess(tenantId, other.tenantId)
      else if projectId != other.projectId then StringLess(projectId, other.projectId)
      else if sourceId != other.sourceId then StringLess(sourceId, other.sourceId)
      else if scope != other.scope then StringLess(scope, other.scope)
      else if name != other.name then StringLess(name, other.name)
      else StringLess(valueType, other.valueType)
    }
  }

  const KeyLess: (CatalogKey, CatalogKey) -> bool := (a: CatalogKey, b: CatalogKey) => a.Less(b)

  /** First and last observed event time. */
  datatype Window = Window(first: Time, last: Time)

  datatype Entry = Entry(key: CatalogKey, seen: Window)

  datatype CatalogError =
    | MissingTenant | MissingProject | MissingSource | MissingScope | MissingName | MissingType | MissingTime
    | UnknownScope | UnknownType

  function KeyOf(r: Record): CatalogKey {
    CatalogKey(r.base.tenantId, r.base.projectId, r.base.sourceId, r.scope, r.name, r.valueType)
  }

  /** Event time, or the collect time when the source sent none. */
  function ObservedAt(r: Record): Time {
    if r.base.eventTime != ZERO_TIME then r.base.eventTime else r.base.receivedAt
  }

  function Validate(r: Record): Option<CatalogError> {
    if r.base.tenantId == "" then Some(MissingTenant)
    else if r.base.projectId == "" then Some(MissingProject)
    else if r.base.sourceId == "" then Some(MissingSource)
    else if r.scope == "" then Some(MissingScope)
    else if r.name == "" then Some(MissingName)
    else if r.valueType == "" then Some(MissingType)
    else if ObservedAt(r) == ZERO_TIME then Some(MissingTime)
    else None
  }

  function ValidateEntry(e: Entry): Option<CatalogError> {
    if e.key.tenantId == "" then Some(MissingTenant)
    else if e.key.projectId == "" then Some(MissingProject)
    else if e.key.sourceId == "" then Some(MissingSource)
    else if e.key.scope == "" then Some(MissingScope)
    else if e.key.scope !in {SCOPE_EVENT, SCOPE_USER} then Some(UnknownScope)
    else if e.key.name == "" then Some(MissingName)
    else if e.key.valueType == "" then Some(MissingType)
    else if e.key.valueType !in {TYPE_NULL, TYPE_STRING, TYPE_NUMBER, TYPE_BOOL} then Some(UnknownType)
    else if e.seen.first == ZERO_TIME || e.seen.last == ZERO_TIME then Some(MissingTime)
    else None
  }

  // -------------------------------------------------------------- key order

  /** The lexicographic order of catalog keys is a strict total order. */
  lemma KeyOrder()
    ensures StrictTotal(KeyLess)
  {
    StringOrder();
    forall a, b ensures a == b || KeyLess(a, b) || KeyLess(b, a) { KeyTrichotomy(a, b); }
    forall a ensures !KeyLess(a, a) { StringLessTotal(a.valueType, a.valueType); }
    forall a, b, c | KeyLess(a, b) && KeyLess(b, c) ensures KeyLess(a, c) { KeyTransitive(a, b, c); }
  }

  /** Keys are compared by tenant, project, source, scope, name and type, in that order. */
  lemma KeyLessMeans(a: CatalogKey, b: CatalogKey)
    ensures a.Less(b) <==>
              || StringLess(a.tenantId, b.tenantId)
              || (a.tenantId == b.tenantId && StringLess(a.projectId, b.projectId))
              || (a.tenantId == b.tenantId && a.projectId == b.projectId && StringLess(a.sourceId, b.sourceId))
              || (a.tenantId == b.tenantId && a.projectId == b.projectId && a.sourceId == b.sourceId &&
                    (|| StringLess(a.scope, b.scope)
                     || (a.scope == b.scope && StringLess(a.name, b.name))
                     || (a.scope == b.scope && a.name == b.name && StringLess(a.valueType, b.valueType))))
  {
    StringLessTotal(a.tenantId, b.tenantId);
    StringLessTotal(a.projectId, b.projectId);
    StringLessTotal(a.sourceId, b.sourceId);
    StringLessTotal(a.scope, b.scope);
    StringLessTotal(a.name, b.name);
  }

  lemma KeyTrichotomy(a: CatalogKey, b: CatalogKey)
    ensures a == b || a.Less(b) || b.Less(a)
  {
    StringLessTotal(a.tenantId, b.tenantId);
    StringLessTotal(a.projectId, b.projectId);
    StringLessTotal(a.sourceId, b.sourceId);
    StringLessTotal(a.scope, b.scope);
    StringLessTotal(a.name, b.name);
    StringLessTotal(a.valueType, b.valueType);
  }

  lemma {:induction false} FieldTransitive(a: string, b: string, c: string)
    ensures StringLess(a, b) && StringLess(b, c) ==> StringLess(a, c)
    ensures StringLess(a, b) && StringLess(b, c) ==> a != c
  {
    if StringLess(a, b) && StringLess(b, c) {
      StringLessTransitive(a, b, c);
      StringLessTotal(a, b);
    }
  }

  lemma KeyTransitive(a: CatalogKey, b: CatalogKey, c: CatalogKey)
    requires a.Less(b) && b.Less(c)
    ensures a.Less(c)
  {
    FieldTransitive(a.tenantId, b.tenantId, c.tenantId);
    FieldTransitive(a.projectId, b.projectId, c.projectId);
    FieldTransitive(a.sourceId, b.sourceId, c.sourceId);
    FieldTransitive(a.scope, b.scope, c.scope);
    FieldTransitive(a.name, b.name, c.name);
    FieldTransitive(a.valueType, b.valueType, c.valueType);
  }

  // ------------------------------------------------------ condensing a batch

  /** One sighting of a catalog key. */
  datatype Sighting = Sighting(key: CatalogKey, at: Time)

  function SightingsOf(records: seq<Record>): set<Sighting> {
    set r | r in records :: Sighting(KeyOf(r), ObservedAt(r))
  }

  /** `seen` is exactly the window spanned by the sightings of `key`. */
  ghost predicate Spans(seen: Window, key: CatalogKey, sightings: set<Sighting>) {
    && Sighting(key, seen.first) in sightings
    && Sighting(key, seen.last) in sightings
    && forall s | s in sightings && s.key == key :: seen.first <= s.at <= seen.last
  }

  /** A table that holds one exact window per sighted key and nothing else. */
  ghost predicate Reflects(rows: map<CatalogKey, Window>, sightings: set<Sighting>) {
    && (forall s | s in sightings :: s.key in rows)
    && (forall k | k in rows :: Spans(rows[k], k, sightings))
  }

  /** The sightings determine the table. */
  lemma ReflectsUnique(a: map<CatalogKey, Window>, b: map<CatalogKey, Window>, sightings: set<Sighting>)
    requires Reflects(a, sightings) && Reflects(b, sightings)
    ensures a == b
  {
    forall k ensures k in a <==> k in b {
      if k in a { assert Sighting(k, a[k].first) in sightings; }
      if k in b { assert Sighting(k, b[k].first) in sightings; }
    }
    forall k | k in a ensures a[k] == b[k] {
      assert Spans(a[k], k, sightings) && Spans(b[k], k, sightings);
    }
  }

  function Widen(seen: Window, other: Window): Window {
    Window(if other.first < seen.first then other.first else seen.first,
           if other.last > seen.last then other.last else seen.last)
  }

  function Upsert(rows: map<CatalogKey, Window>, e: Entry): map<CatalogKey, Window> {
    rows[e.key := if e.key in rows then Widen(rows[e.key], e.seen) else e.seen]
  }

  /** The rows after the first `n` entries of a multi-row upsert. */
  function UpsertFirst(rows: map<CatalogKey, Window>, entries: seq<Entry>, n: nat): map<CatalogKey, Window>
    requires n <= |entries|
  {
    if n == 0 then rows else Upsert(UpsertFirst(rows, entries, n - 1), entries[n - 1])
  }

  function UpsertAll(rows: map<CatalogKey, Window>, entries: seq<Entry>): map<CatalogKey, Window> {
    UpsertFirst(rows, entries, |entries|)
  }

  function EntryFrom(r: Record): Entry {
    Entry(KeyOf(r), Window(ObservedAt(r), ObservedAt(r)))
  }

  /** Upserting entries whose windows span `more` turns a table of `sightings` into the table
      of both. */
  lemma UpsertReflects(rows: map<CatalogKey, Window>, sightings: set<Sighting>, e: Entry, more: set<Sighting>)
    requires Reflects(rows, sightings)
    requires Spans(e.seen, e.key, more) && forall s | s in more :: s.key == e.key
    ensures Reflects(Upsert(rows, e), sightings + more)
  {
    var after := Upsert(rows, e);
    forall k | k in after ensures Spans(after[k], k, sightings + more) {
      if k in rows {
        assert Spans(rows[k], k, sightings);
      }
      if k == e.key && k !in rows {
        assert forall s | s in sightings :: s.key != k;
      }
    }
  }

  /** How a table and the sightings behind it may be related. */
  type Relation = (map<CatalogKey, Window>, set<Sighting>) -> bool

  /** `more` are sightings of the entry's own key, and its window is exactly theirs. */
  ghost predicate SpansOnly(e: Entry, more: set<Sighting>) {
    Spans(e.seen, e.key, more) && forall s | s in more :: s.key == e.key
  }

  /** The relation holds of nothing seen, and upserts of spanning entries keep it. */
  ghost predicate Stable(relation: Relation) {
    && relation(map[], {})
    && forall rows, seen, e: Entry, more | relation(rows, seen) && SpansOnly(e, more) :: relation(Upsert(rows, e), seen + more)
  }

  ghost function Exactness(): Relation {
    (rows: map<CatalogKey, Window>, seen: set<Sighting>) => Reflects(rows, seen)
  }

  lemma ExactnessIsStable()
    ensures Stable(Exactness())
  {
    forall rows, seen, e: Entry, more | Exactness()(rows, seen) && SpansOnly(e, more) ensures Exactness()(Upsert(rows, e), seen + more) {
      UpsertReflects(rows, seen, e, more);
    }
  }

  lemma StableStep(relation: Relation, rows: map<CatalogKey, Window>, seen: set<Sighting>, e: Entry, more: set<Sighting>)
    requires Stable(relation) && relation(rows, seen) && SpansOnly(e, more)
    ensures relation(Upsert(rows, e), seen + more)
  {
  }

  /** `entries` has one entry per sighted key, strictly sorted, each with the exact window. */
  ghost predicate Condenses(entries: seq<Entry>, records: seq<Record>) {
    && Sorted(KeyLess, Keys(entries))
    && (forall r | r in records :: KeyOf(r) in Keys(entries))
    && (forall e | e in entries :: Spans(e.seen, e.key, SightingsOf(records)))
  }

  function Keys(entries: seq<Entry>): seq<CatalogKey> {
    seq(|entries|, i requires 0 <= i < |entries| => entries[i].key)
  }

  lemma CondensedKeys(a: seq<Entry>, b: seq<Entry>, recordsA: seq<Record>, recordsB: seq<Record>)
    requires Condenses(a, recordsA) && Condenses(b, recordsB)
    requires forall r :: r in recordsA <==> r in recordsB
    ensures Keys(a) == Keys(b)
  {
    forall k ensures k in Keys(a) <==> k in Keys(b) {
      if k in Keys(a) { KeySighted(a, recordsA, k); }
      if k in Keys(b) { KeySighted(b, recordsB, k); }
    }
    KeyOrder();
    SortedUnique(KeyLess, Keys(a), Keys(b));
  }

  lemma SpansUnique(a: Window, b: Window, key: CatalogKey, sightings: set<Sighting>)
    requires Spans(a, key, sightings) && Spans(b, key, sightings)
    ensures a == b
  {
  }

  /** Condensing depends only on which rows are present: not on their order, on repeats, or
      on the order in which the intermediate map is traversed. */
  lemma CondenseUnique(a: seq<Entry>, b: seq<Entry>, recordsA: seq<Record>, recordsB: seq<Record>)
    requires Condenses(a, recordsA) && Condenses(b, recordsB)
    requires forall r :: r in recordsA <==> r in recordsB
    ensures a == b
  {
    CondensedKeys(a, b, recordsA, recordsB);
    assert SightingsOf(recordsA) == SightingsOf(recordsB);
    assert |a| == |Keys(a)| == |b|;
    forall i | 0 <= i < |a| ensures a[i] == b[i] {
      assert a[i].key == Keys(a)[i] == Keys(b)[i] == b[i].key;
      assert a[i] in a && b[i] in b;
      SpansUnique(a[i].seen, b[i].seen, a[i].key, SightingsOf(recordsA));
    }
  }

  lemma KeySighted(entries: seq<Entry>, records: seq<Record>, k: CatalogKey)
    requires Condenses(entries, records) && k in Keys(entries)
    ensures exists r :: r in records && KeyOf(r) == k
  {
    var i :| 0 <= i < |entries| && Keys(entries)[i] == k;
    assert entries[i] in entries;
    assert Sighting(k, entries[i].seen.first) in SightingsOf(records);
  }

  /** The intermediate map after the first `n` rows. */
  function Collected(records: seq<Record>, n: nat): map<CatalogKey, Window>
    requires n <= |records|
  {
    if n == 0 then map[] else Upsert(Collected(records, n - 1), EntryFrom(records[n - 1]))
  }

  lemma SightingsStep(records: seq<Record>, n: nat)
    requires 0 < n <= |records|
    ensures SightingsOf(records[..n]) == SightingsOf(records[..n - 1]) + {Sighting(KeyOf(records[n - 1]), ObservedAt(records[n - 1]))}
  {
    assert records[..n] == records[..n - 1] + [records[n - 1]];
  }

  lemma {:induction false} CollectedKeeps(relation: Relation, records: seq<Record>, n: nat)
    requires n <= |records| && Stable(relation)
    ensures relation(Collected(records, n), SightingsOf(records[..n]))
  {
    if n > 0 {
      var r := records[n - 1];
      CollectedKeeps(relation, records, n - 1);
      SightingsStep(records, n);
      StableStep(relation, Collected(records, n - 1), SightingsOf(records[..n - 1]), EntryFrom(r), {Sighting(KeyOf(r), ObservedAt(r))});
    } else {
      assert SightingsOf(records[..0]) == {};
    }
  }

  lemma {:induction false} CollectedReflects(records: seq<Record>)
    ensures Reflects(Collected(records, |records|), SightingsOf(records))
  {
    ExactnessIsStable();
    CollectedKeeps(Exactness(), records, |records|);
    assert records[..|records|] == records;
  }

  /** The loop over the batch: validate each row, then merge its window under its key. */
  method CollectEntries(records: seq<Record>) returns (r: Result<map<CatalogKey, Window>, CatalogError>)
    ensures r.Ok? <==> forall j | 0 <= j < |records| :: Validate(records[j]) == None
    ensures r.Ok? ==> Reflects(r.value, SightingsOf(records))
    ensures r.Err? ==> exists i | 0 <= i < |records| ::
                         Validate(records[i]) == Some(r.error) && forall j | 0 <= j < i :: Validate(records[j]) == None
  {
    var entriesByKey: map<CatalogKey, Window> := map[];
    for i := 0 to |records|
      invariant forall j | 0 <= j < i :: Validate(records[j]) == None
      invariant entriesByKey == Collected(records, i)
    {
      var invalid := Validate(records[i]);
      if invalid.Some? {
        return Err(invalid.value);
      }
      var entry := EntryFrom(records[i]);
      if entry.key !in entriesByKey {
        entriesByKey := entriesByKey[entry.key := entry.seen];
      } else {
        entriesByKey := entriesByKey[entry.key := Widen(entriesByKey[entry.key], entry.seen)];
      }
    }
    CollectedReflects(records);
    return Ok(entriesByKey);
  }

  function Listed(rows: map<CatalogKey, Window>, keys: seq<CatalogKey>): seq<Entry>
    requires forall k | k in keys :: k in rows
  {
    seq(|keys|, i requires 0 <= i < |keys| => assert keys[i] in keys; Entry(keys[i], rows[keys[i]]))
  }

  /** Listing the rows of an exact table in key order condenses the batch. */
  lemma RowsCondense(rows: map<CatalogKey, Window>, records: seq<Record>, keys: seq<CatalogKey>)
    requires Reflects(rows, SightingsOf(records))
    requires Sorted(KeyLess, keys) && forall k :: k in keys <==> k in rows
    ensures Condenses(Listed(rows, keys), records)
  {
    var entries := Listed(rows, keys);
    assert Keys(entries) == keys;
    forall x | x in records ensures KeyOf(x) in Keys(entries) {
      assert Sighting(KeyOf(x), ObservedAt(x)) in SightingsOf(records);
    }
    forall e | e in entries ensures Spans(e.seen, e.key, SightingsOf(records)) {
      assert e.key in rows && e.seen == rows[e.key];
    }
  }

  lemma CondensedExists(records: seq<Record>) returns (entries: seq<Entry>)
    ensures Condenses(entries, records)
  {
    KeyOrder();
    CollectedReflects(records);
    var rows := Collected(records, |records|);
    var keys := SortedSeq(KeyLess, rows.Keys);
    RowsCondense(rows, records, keys);
    entries := Listed(rows, keys);
  }

  /** One entry per distinct key, strictly sorted, each spanning exactly the observed times of
      its key; the first invalid row fails the whole batch. */
  method BuildPropertyCatalogEntries(records: seq<Record>) returns (r: Result<seq<Entry>, CatalogError>)
    ensures r.Ok? <==> forall j | 0 <= j < |records| :: Validate(records[j]) == None
    ensures r.Ok? ==> Condenses(r.value, records)
    ensures r.Err? ==> exists i | 0 <= i < |records| ::
                         Validate(records[i]) == Some(r.error) && forall j | 0 <= j < i :: Validate(records[j]) == None
  {
    var collected := CollectEntries(records);
    if collected.Err? {
      return Err(collected.error);
    }
    KeyOrder();
    var keys := SortKeys(KeyLess, collected.value.Keys);
    RowsCondense(collected.value, records, keys);
    return Ok(Listed(collected.value, keys));
  }

  /** The observed time is the event's own, or the receive time if the source sent none. */
  predicate SeenAt(r: Record, at: Time) {
    if r.base.eventTime != ZERO_TIME then at == r.base.eventTime else at == r.base.receivedAt
  }

  predicate UnderKey(r: Record, k: CatalogKey) {
    && r.base.tenantId == k.tenantId && r.base.projectId == k.projectId && r.base.sourceId == k.sourceId
    && r.scope == k.scope && r.name == k.name && r.valueType == k.valueType
  }

  /** What an entry says of the batch: some row of its key was seen at each end of the window, and
      every row of its key inside it. */
  lemma EntryMeans(entries: seq<Entry>, records: seq<Record>, e: Entry) returns (first: Record, last: Record)
    requires Condenses(entries, records) && e in entries
    ensures first in records && UnderKey(first, e.key) && SeenAt(first, e.seen.first)
    ensures last in records && UnderKey(last, e.key) && SeenAt(last, e.seen.last)
    ensures forall r, at | r in records && UnderKey(r, e.key) && SeenAt(r, at) :: e.seen.first <= at <= e.seen.last
  {
    first :| first in records && Sighting(KeyOf(first), ObservedAt(first)) == Sighting(e.key, e.seen.first);
    last :| last in records && Sighting(KeyOf(last), ObservedAt(last)) == Sighting(e.key, e.seen.last);
    forall r, at | r in records && UnderKey(r, e.key) && SeenAt(r, at) ensures e.seen.first <= at <= e.seen.last {
      assert Sighting(KeyOf(r), ObservedAt(r)) in SightingsOf(records);
    }
  }

  /** A row is valid exactly if its key is complete and it has a time of its own or of its receipt. */
  lemma ValidMeans(r: Record)
    ensures Validate(r) == None <==>
              && r.base.tenantId != "" && r.base.projectId != "" && r.base.sourceId != ""
              && r.scope != "" && r.name != "" && r.valueType != ""
              && (r.base.eventTime != ZERO_TIME || r.base.receivedAt != ZERO_TIME)
  {
  }

  /** An entry is valid exactly if its key is complete with a known scope and type, and it has both times. */
  lemma ValidEntryMeans(e: Entry)
    ensures ValidateEntry(e) == None <==>
              && e.key.tenantId != "" && e.key.projectId != "" && e.key.sourceId != "" && e.key.name != ""
              && e.key.scope in {"event", "user"} && e.key.valueType in {"null", "string", "number", "bool"}
              && e.seen.first != 0 && e.seen.last != 0
  {
  }

  // ------------------------------------------------------------ convergence

  /** The sightings of a batch whose key is among the first `n` entries. */
  ghost function SightedBy(entries: seq<Entry>, n: nat, sightings: set<Sighting>): set<Sighting>
    requires n <= |entries|
  {
    set s | s in sightings && exists i | 0 <= i < n :: entries[i].key == s.key
  }

  lemma SightedStep(entries: seq<Entry>, n: nat, before: set<Sighting>, batch: set<Sighting>) returns (more: set<Sighting>)
    requires n < |entries| && Spans(entries[n].seen, entries[n].key, batch)
    ensures SpansOnly(entries[n], more)
    ensures before + SightedBy(entries, n + 1, batch) == before + SightedBy(entries, n, batch) + more
  {
    more := set s | s in batch && s.key == entries[n].key;
  }

  lemma SightedNone(entries: seq<Entry>, before: set<Sighting>, batch: set<Sighting>)
    ensures before + SightedBy(entries, 0, batch) == before
  {
  }

  lemma {:induction false} UpsertFirstKeeps(relation: Relation, rows: map<CatalogKey, Window>, entries: seq<Entry>, n: nat,
                                            before: set<Sighting>, batch: set<Sighting>)
    requires n <= |entries| && Stable(relation) && relation(rows, before)
    requires forall i | 0 <= i < |entries| :: Spans(entries[i].seen, entries[i].key, batch)
    ensures relation(UpsertFirst(rows, entries, n), before + SightedBy(entries, n, batch))
  {
    if n > 0 {
      UpsertFirstKeeps(relation, rows, entries, n - 1, before, batch);
      var more := SightedStep(entries, n - 1, before, batch);
      StableStep(relation, UpsertFirst(rows, entries, n - 1), before + SightedBy(entries, n - 1, batch), entries[n - 1], more);
    } else {
      SightedNone(entries, before, batch);
    }
  }

  lemma AllSighted(entries: seq<Entry>, records: seq<Record>)
    requires forall r | r in records :: KeyOf(r) in Keys(entries)
    ensures SightedBy(entries, |entries|, SightingsOf(records)) == SightingsOf(records)
  {
    forall s | s in SightingsOf(records) ensures exists i | 0 <= i < |entries| :: entries[i].key == s.key {
      var r :| r in records && Sighting(KeyOf(r), ObservedAt(r)) == s;
      var i :| 0 <= i < |entries| && Keys(entries)[i] == KeyOf(r);
    }
  }

  lemma BatchKeeps(relation: Relation, rows: map<CatalogKey, Window>, before: set<Sighting>, entries: seq<Entry>, records: seq<Record>)
    requires Stable(relation) && relation(rows, before) && Condenses(entries, records)
    ensures relation(UpsertAll(rows, entries), before + SightingsOf(records))
  {
    AllSighted(entries, records);
    assert forall i | 0 <= i < |entries| :: entries[i] in entries;
    UpsertFirstKeeps(relation, rows, entries, |entries|, before, SightingsOf(records));
  }

  /** Upserting a condensed batch leaves, for every key ever sighted, exactly the earliest and
      latest observed time over the old sightings and the batch. */
  lemma BatchWidensTable(rows: map<CatalogKey, Window>, before: set<Sighting>, entries: seq<Entry>, records: seq<Record>)
    requires Reflects(rows, before) && Condenses(entries, records)
    ensures Reflects(UpsertAll(rows, entries), before + SightingsOf(records))
  {
    ExactnessIsStable();
    BatchKeeps(Exactness(), rows, before, entries, records);
  }

  /** One delivery: the rows of a batch, and the entries that were built from it. */
  datatype Batch = Batch(records: seq<Record>, entries: seq<Entry>)

  function Replay(batches: seq<Batch>, n: nat): map<CatalogKey, Window>
    requires n <= |batches|
  {
    if n == 0 then map[] else UpsertAll(Replay(batches, n - 1), batches[n - 1].entries)
  }

  /** Everything observed by the first `n` batches. */
  function Observed(batches: seq<Batch>, n: nat): set<Sighting>
    requires n <= |batches|
  {
    if n == 0 then {} else Observed(batches, n - 1) + SightingsOf(batches[n - 1].records)
  }

  ghost predicate Built(batches: seq<Batch>) {
    forall b | b in batches :: Condenses(b.entries, b.records)
  }

  ghost predicate KeptBy(relation: Relation, b: Batch) {
    forall rows, seen | relation(rows, seen) :: relation(UpsertAll(rows, b.entries), seen + SightingsOf(b.records))
  }

  lemma {:induction false} ReplayKeeps(relation: Relation, batches: seq<Batch>, n: nat)
    requires n <= |batches| && relation(map[], {})
    requires forall i | 0 <= i < |batches| :: KeptBy(relation, batches[i])
    ensures relation(Replay(batches, n), Observed(batches, n))
  {
    if n > 0 {
      ReplayKeeps(relation, batches, n - 1);
      assert KeptBy(relation, batches[n - 1]);
    }
  }

  lemma BuiltIsKept(relation: Relation, b: Batch)
    requires Stable(relation) && Condenses(b.entries, b.records)
    ensures KeptBy(relation, b)
  {
    forall rows, seen | relation(rows, seen) ensures relation(UpsertAll(rows, b.entries), seen + SightingsOf(b.records)) {
      BatchKeeps(relation, rows, seen, b.entries, b.records);
    }
  }

  lemma {:induction false} ReplayReflects(batches: seq<Batch>)
    requires Built(batches)
    ensures Reflects(Replay(batches, |batches|), Observed(batches, |batches|))
  {
    ExactnessIsStable();
    forall i | 0 <= i < |batches| ensures KeptBy(Exactness(), batches[i]) {
      assert batches[i] in batches;
      BuiltIsKept(Exactness(), batches[i]);
    }
    ReplayKeeps(Exactness(), batches, |batches|);
  }

  lemma {:induction false} ObservedMembers(batches: seq<Batch>, n: nat, s: Sighting)
    requires n <= |batches|
    ensures s in Observed(batches, n) <==> exists i | 0 <= i < n :: s in SightingsOf(batches[i].records)
  {
    if n > 0 {
      ObservedMembers(batches, n - 1, s);
    }
  }

  /** Every row of `a`'s batches occurs in some batch of `b`. */
  ghost predicate Covered(a: seq<Batch>, b: seq<Batch>) {
    forall x | x in a :: forall r | r in x.records :: exists y :: y in b && r in y.records
  }

  lemma {:induction false} CoveredObservations(a: seq<Batch>, b: seq<Batch>)
    requires Covered(a, b)
    ensures Observed(a, |a|) <= Observed(b, |b|)
  {
    forall s | s in Observed(a, |a|) ensures s in Observed(b, |b|) {
      ObservedMembers(a, |a|, s);
      ObservedMembers(b, |b|, s);
      SightedElsewhere(a, b, s);
    }
  }

  /** After any sequence of batches, reordered, split or replayed in any way, the catalog is the
      same as soon as the same observations were made. */
  lemma {:induction false} CatalogConverges(a: seq<Batch>, b: seq<Batch>)
    requires Built(a) && Built(b) && Covered(a, b) && Covered(b, a)
    ensures Replay(a, |a|) == Replay(b, |b|)
  {
    CoveredObservations(a, b);
    CoveredObservations(b, a);
    assert Observed(a, |a|) == Observed(b, |b|);
    ReplayReflects(a);
    ReplayReflects(b);
    ReflectsUnique(Replay(a, |a|), Replay(b, |b|), Observed(a, |a|));
  }

  lemma SightedElsewhere(a: seq<Batch>, b: seq<Batch>, s: Sighting)
    requires Covered(a, b)
    requires exists i | 0 <= i < |a| :: s in SightingsOf(a[i].records)
    ensures exists j | 0 <= j < |b| :: s in SightingsOf(b[j].records)
  {
    var i :| 0 <= i < |a| && s in SightingsOf(a[i].records);
    assert a[i] in a;
    var r :| r in a[i].records && Sighting(KeyOf(r), ObservedAt(r)) == s;
    var y :| y in b && r in y.records;
    var j :| 0 <= j < |b| && b[j] == y;
    assert s in SightingsOf(b[j].records);
  }

  /** Any table of proper windows is the table of its own end points. */
  lemma OwnEndpoints(rows: map<CatalogKey, Window>) returns (sightings: set<Sighting>)
    requires forall k | k in rows :: rows[k].first <= rows[k].last
    ensures Reflects(rows, sightings)
  {
    sightings := (set k | k in rows :: Sighting(k, rows[k].first)) + (set k | k in rows :: Sighting(k, rows[k].last));
  }

  lemma SightingsConcat(a: seq<Record>, b: seq<Record>, before: set<Sighting>)
    ensures before + SightingsOf(a) + SightingsOf(b) == before + SightingsOf(a + b)
  {
    assert SightingsOf(a + b) == SightingsOf(a) + SightingsOf(b);
  }

  /** Building and upserting two batches one after the other equals building and upserting
      their concatenation, on every table. */
  lemma SplitBatchesAgree(rows: map<CatalogKey, Window>, a: Batch, b: Batch, both: Batch)
    requires forall k | k in rows :: rows[k].first <= rows[k].last
    requires Condenses(a.entries, a.records) && Condenses(b.entries, b.records)
    requires Condenses(both.entries, both.records) && both.records == a.records + b.records
    ensures UpsertAll(UpsertAll(rows, a.entries), b.entries) == UpsertAll(rows, both.entries)
  {
    var before := OwnEndpoints(rows);
    var first := UpsertAll(rows, a.entries);
    BatchWidensTable(rows, before, a.entries, a.records);
    BatchWidensTable(first, before + SightingsOf(a.records), b.entries, b.records);
    BatchWidensTable(rows, before, both.entries, both.records);
    SightingsConcat(a.records, b.records, before);
    ReflectsUnique(UpsertAll(first, b.entries), UpsertAll(rows, both.entries), before + SightingsOf(both.records));
  }

  // ---------------------------------------------------------------- coverage

  /** Every observed row lies inside the catalog window of its key. */
  ghost predicate Covers(catalog: map<CatalogKey, Window>, records: seq<Record>) {
    forall r | r in records ::
      && KeyOf(r) in catalog
      && catalog[KeyOf(r)].first <= ObservedAt(r) <= catalog[KeyOf(r)].last
  }

  /** Windows only widen. */
  ghost predicate Widens(a: map<CatalogKey, Window>, b: map<CatalogKey, Window>) {
    forall k | k in a :: k in b && b[k].first <= a[k].first && a[k].last <= b[k].last
  }

  lemma {:induction false} UpsertOnlyWidens(rows: map<CatalogKey, Window>, entries: seq<Entry>, n: nat)
    requires n <= |entries|
    ensures Widens(rows, UpsertFirst(rows, entries, n))
  {
    if n > 0 {
      UpsertOnlyWidens(rows, entries, n - 1);
    }
  }

  lemma {:induction false} UpsertIncludes(rows: map<CatalogKey, Window>, entries: seq<Entry>, n: nat, i: nat)
    requires i < n <= |entries|
    ensures var after := UpsertFirst(rows, entries, n);
            entries[i].key in after && after[entries[i].key].first <= entries[i].seen.first && entries[i].seen.last <= after[entries[i].key].last
  {
    if i < n - 1 {
      UpsertIncludes(rows, entries, n - 1, i);
    }
  }

  /** After the upsert of a condensed batch every row of the batch is covered. */
  lemma UpsertCovers(rows: map<CatalogKey, Window>, entries: seq<Entry>, records: seq<Record>)
    requires Condenses(entries, records)
    ensures Covers(UpsertAll(rows, entries), records)
  {
    forall r | r in records
      ensures var after := UpsertAll(rows, entries);
              KeyOf(r) in after && after[KeyOf(r)].first <= ObservedAt(r) <= after[KeyOf(r)].last
    {
      var i :| 0 <= i < |entries| && Keys(entries)[i] == KeyOf(r);
      assert entries[i] in entries;
      assert Sighting(KeyOf(r), ObservedAt(r)) in SightingsOf(records);
      UpsertIncludes(rows, entries, |entries|, i);
    }
  }

  lemma WidenKeepsCover(a: map<CatalogKey, Window>, b: map<CatalogKey, Window>, records: seq<Record>)
    requires Widens(a, b) && Covers(a, records)
    ensures Covers(b, records)
  {
  }
}
