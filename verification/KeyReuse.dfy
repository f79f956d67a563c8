/** What reusing an event key does, end to end: a run in which every statement, handler call and
    mark succeeds, and which stores the row of one envelope beside the properties of another. */
module KeyReuse {
  import opened Prelude
  import opened Events
  import opened EndToEnd
  import opened PropertyIndex
  import opened History
  import opened KeyGuards
  import opened DurableQueries
  import Catalog = PropertyCatalog
  import Kafka = KafkaDelivery
  import Commits = OrderedCommit

  // ------------------------------------------------------- states in reach

  /** A state as one key sees it, with what has been appended so far. */
  datatype View = View(delivery: Kafka.Delivery, machine: Machine, calls: map<int, Call>, trace: Trace)

  ghost predicate Shows(s: System, tr: Trace, key: StatusKey, v: View) {
    s.delivery == v.delivery && MachineAt(s, key) == v.machine && s.calls == v.calls && tr == v.trace
  }

  ghost predicate CanReach(c: Config, key: StatusKey, v: View) {
    exists ss: seq<System>, trs: seq<Trace> ::
      TracedRun(c, ss, trs) && Shows(ss[|ss| - 1], trs[|ss| - 1], key, v)
  }

  lemma OneMoreAction(c: Config, ss: seq<System>, trs: seq<Trace>, a: Action)
    requires TracedRun(c, ss, trs) && CanDo(c, ss[|ss| - 1], a)
    ensures TracedRun(c, ss + [Do(c, ss[|ss| - 1], a)], trs + [TraceAfter(c, ss[|ss| - 1], trs[|ss| - 1], a)])
  {
    var s, tr := ss[|ss| - 1], trs[|ss| - 1];
    var more, records := ss + [Do(c, s, a)], trs + [TraceAfter(c, s, tr, a)];
    forall i | 0 <= i < |more| - 1
      ensures EndToEnd.Next(c, more[i], more[i + 1]) && TracedNext(c, more[i], records[i], more[i + 1], records[i + 1])
    {
      if i < |ss| - 1 {
        assert TracedNext(c, ss[i], trs[i], ss[i + 1], trs[i + 1]);
        assert EndToEnd.Next(c, ss[i], ss[i + 1]);
      }
    }
  }

  lemma ReachedBy(c: Config, key: StatusKey, ss: seq<System>, trs: seq<Trace>, a: Action, v: View)
    requires TracedRun(c, ss, trs) && CanDo(c, ss[|ss| - 1], a)
    requires Shows(Do(c, ss[|ss| - 1], a), TraceAfter(c, ss[|ss| - 1], trs[|ss| - 1], a), key, v)
    ensures CanReach(c, key, v)
  {
    OneMoreAction(c, ss, trs, a);
    var more, records := ss + [Do(c, ss[|ss| - 1], a)], trs + [TraceAfter(c, ss[|ss| - 1], trs[|ss| - 1], a)];
    assert Shows(more[|more| - 1], records[|more| - 1], key, v);
  }

  lemma ThenDeliver(c: Config, key: StatusKey, v: View, action: Kafka.Action)
    requires CanReach(c, key, v) && !HandlerReturn(action) && Kafka.CanDo(DeliveryConfig(c), v.delivery, action)
    ensures CanReach(c, key, v.(delivery := Kafka.Do(DeliveryConfig(c), v.delivery, action)))
  {
    var ss, trs :| TracedRun(c, ss, trs) && Shows(ss[|ss| - 1], trs[|ss| - 1], key, v);
    ReachedBy(c, key, ss, trs, Deliver(action), v.(delivery := Kafka.Do(DeliveryConfig(c), v.delivery, action)));
  }

  /** A handler call for the record of task `id` may start this worker. */
  ghost predicate MayInvoke(c: Config, key: StatusKey, v: View, id: int, worker: int, e: Envelope, records: seq<Record>) {
    && worker !in v.machine.procs && id !in v.calls
    && id in v.delivery.tasks && v.delivery.tasks[id].phase.Attempting?
    && (var o := v.delivery.tasks[id].offset; o in c.log && c.log[o] == Carries(e))
    && Prepare(c.conv, e) == Some(Job(key, records))
  }

  function InvokeSeen(key: StatusKey, v: View, id: int, worker: int, e: Envelope, records: seq<Record>): View
    requires worker !in v.machine.procs
  {
    v.(machine := Spawn(v.machine, worker, records), calls := v.calls[id := Call(key, worker)],
       trace := v.trace.(origin := v.trace.origin[(key, worker) := e]))
  }

  lemma ThenInvoke(c: Config, key: StatusKey, v: View, id: int, worker: int, e: Envelope, records: seq<Record>)
    requires CanReach(c, key, v) && MayInvoke(c, key, v, id, worker, e, records)
    ensures CanReach(c, key, InvokeSeen(key, v, id, worker, e, records))
  {
    var ss, trs :| TracedRun(c, ss, trs) && Shows(ss[|ss| - 1], trs[|ss| - 1], key, v);
    ReachedBy(c, key, ss, trs, Invoke(id, worker), InvokeSeen(key, v, id, worker, e, records));
  }

  /** The worker's pending statement succeeds. */
  function WriteSeen(key: StatusKey, v: View, worker: int): View
    requires CanStep(v.machine, worker, Replied)
  {
    v.(machine := Step(v.machine, worker, Replied), trace := Appended(v.trace, key, worker, v.machine.procs[worker], Replied))
  }

  lemma ThenWrite(c: Config, key: StatusKey, v: View, worker: int, entries: seq<Catalog.Entry>)
    requires CanReach(c, key, v) && CanStep(v.machine, worker, Replied) && Catalog.Condenses(entries, v.machine.procs[worker].records)
    ensures CanReach(c, key, WriteSeen(key, v, worker))
  {
    var ss, trs :| TracedRun(c, ss, trs) && Shows(ss[|ss| - 1], trs[|ss| - 1], key, v);
    ReachedBy(c, key, ss, trs, Write(key, worker, Replied, entries), WriteSeen(key, v, worker));
  }

  /** The worker of task `id` has returned without an error. */
  predicate MayFinish(key: StatusKey, v: View, id: int) {
    && id in v.delivery.tasks && v.delivery.tasks[id].phase.Attempting?
    && id in v.calls && v.calls[id].key == key && v.calls[id].worker in v.machine.procs
    && v.machine.procs[v.calls[id].worker].pc == Returned(true)
  }

  function FinishSeen(c: Config, key: StatusKey, v: View, id: int): View
    requires MayFinish(key, v, id)
  {
    v.(delivery := Kafka.TaskStep(DeliveryConfig(c), v.delivery, id, Kafka.HandlerReturns(true)), calls := v.calls - {id})
  }

  lemma ThenFinish(c: Config, key: StatusKey, v: View, id: int)
    requires CanReach(c, key, v) && MayFinish(key, v, id)
    ensures CanReach(c, key, FinishSeen(c, key, v, id))
  {
    var ss, trs :| TracedRun(c, ss, trs) && Shows(ss[|ss| - 1], trs[|ss| - 1], key, v);
    ReachedBy(c, key, ss, trs, Finish(id), FinishSeen(c, key, v, id));
  }

  lemma FromTheStart(c: Config, key: StatusKey, d: Kafka.Delivery)
    requires Kafka.Init(DeliveryConfig(c), d)
    ensures CanReach(c, key, View(d, EMPTY_MACHINE, map[], EMPTY_TRACE))
  {
    var s := System(d, map[], map[], map[]);
    assert TracedRun(c, [s], [EMPTY_TRACE]);
    assert Shows([s][|[s]| - 1], [EMPTY_TRACE][|[s]| - 1], key, View(d, EMPTY_MACHINE, map[], EMPTY_TRACE));
  }

  // ------------------------------------------- two envelopes under one key

  /** The log holds two accepted envelopes with properties and the same key, and nothing else. */
  ghost predicate Reuses(c: Config, key: StatusKey, a: Envelope, b: Envelope, rowsA: seq<Record>, rowsB: seq<Record>) {
    && c.log == map[0 := Carries(a), 1 := Carries(b)] && c.maxAttempts >= 1
    && Prepare(c.conv, a) == Some(Job(key, rowsA)) && rowsA != []
    && Prepare(c.conv, b) == Some(Job(key, rowsB)) && rowsB != []
  }

  function BothOrigins(key: StatusKey, a: Envelope, b: Envelope): map<(StatusKey, int), Envelope> {
    map[(key, 1) := a, (key, 2) := b]
  }

  /** Successful statements of workers with these rows lead from reached views to reached views. */
  ghost predicate WritesReach(reached: View -> bool, key: StatusKey, rowsA: seq<Record>, rowsB: seq<Record>) {
    forall v: View, w: int | reached(v) && CanStep(v.machine, w, Replied) && v.machine.procs[w].records in [rowsA, rowsB] ::
      reached(WriteSeen(key, v, w))
  }

  lemma RunsReach(c: Config, key: StatusKey, rowsA: seq<Record>, rowsB: seq<Record>, entriesA: seq<Catalog.Entry>,
                  entriesB: seq<Catalog.Entry>)
    requires Catalog.Condenses(entriesA, rowsA) && Catalog.Condenses(entriesB, rowsB)
    ensures WritesReach((v: View) => CanReach(c, key, v), key, rowsA, rowsB)
  {
    forall v: View, w: int | CanReach(c, key, v) && CanStep(v.machine, w, Replied) && v.machine.procs[w].records in [rowsA, rowsB]
      ensures CanReach(c, key, WriteSeen(key, v, w))
    {
      ThenWrite(c, key, v, w, if v.machine.procs[w].records == rowsA then entriesA else entriesB);
    }
  }

  /** `v` with the store and the two workers in these states, and these appends made. */
  function At(v: View, store: Store, a: Proc, b: Proc, stored: seq<Envelope>, indexed: seq<Batch>): View {
    v.(machine := Machine(store, map[1 := a, 2 := b]), trace := v.trace.(stored := stored, indexed := indexed))
  }

  lemma StepFirst(reached: View -> bool, key: StatusKey, v: View, store: Store, a: Proc, b: Proc,
                  stored: seq<Envelope>, indexed: seq<Batch>, next: View)
    requires WritesReach(reached, key, a.records, b.records) && reached(At(v, store, a, b, stored, indexed))
    requires Active(a) && (key, 1) in v.trace.origin
    requires var e := v.trace.origin[(key, 1)];
             next == At(v, StoreAfter(store, a, Replied), ProcAfter(store, a, Replied), b,
                        if a.pc == EvAppend then stored + [e] else stored,
                        if a.pc == PrAppend then indexed + [Batch(e, a.records)] else indexed)
    ensures reached(next)
  {
    assert next == WriteSeen(key, At(v, store, a, b, stored, indexed), 1);
  }

  lemma StepSecond(reached: View -> bool, key: StatusKey, v: View, store: Store, a: Proc, b: Proc,
                   stored: seq<Envelope>, indexed: seq<Batch>, next: View)
    requires WritesReach(reached, key, a.records, b.records) && reached(At(v, store, a, b, stored, indexed))
    requires Active(b) && (key, 2) in v.trace.origin
    requires var e := v.trace.origin[(key, 2)];
             next == At(v, StoreAfter(store, b, Replied), a, ProcAfter(store, b, Replied),
                        if b.pc == EvAppend then stored + [e] else stored,
                        if b.pc == PrAppend then indexed + [Batch(e, b.records)] else indexed)
    ensures reached(next)
  {
    assert next == WriteSeen(key, At(v, store, a, b, stored, indexed), 2);
  }

  const CLAIMED := Checkpoint(Processing, 1)
  const WRITTEN := Checkpoint(Inserted, 1)

  /** The first worker stores its event row. */
  lemma RowStored(reached: View -> bool, key: StatusKey, v: View, a: Envelope, rowsA: seq<Record>, rowsB: seq<Record>)
    requires WritesReach(reached, key, rowsA, rowsB) && (key, 1) in v.trace.origin && v.trace.origin[(key, 1)] == a && rowsA != []
    requires reached(At(v, EMPTY_STORE, Proc(rowsA, EvInsert), Proc(rowsB, EvInsert), [], []))
    ensures reached(At(v, EMPTY_STORE.(event := WRITTEN, rows := 1, commits := 1), Proc(rowsA, PrInsert), Proc(rowsB, EvInsert), [a], []))
  {
    var first, second := Proc(rowsA, EvInsert), Proc(rowsB, EvInsert);
    var claimed := EMPTY_STORE.(event := CLAIMED);
    StepFirst(reached, key, v, EMPTY_STORE, first, second, [], [], At(v, claimed, first.(pc := EvAppend), second, [], []));
    var row := claimed.(rows := 1);
    assert [] + [a] == [a];
    StepFirst(reached, key, v, claimed, first.(pc := EvAppend), second, [], [], At(v, row, first.(pc := EvCommit), second, [a], []));
    StepFirst(reached, key, v, row, first.(pc := EvCommit), second, [a], [],
              At(v, row.(event := WRITTEN, commits := 1), first.(pc := PrInsert), second, [a], []));
  }

  /** The second one finds the row inserted, and claims the property checkpoint first. */
  lemma PropertiesClaimed(reached: View -> bool, key: StatusKey, v: View, a: Envelope, rowsA: seq<Record>,
                          rowsB: seq<Record>, row: Store)
    requires WritesReach(reached, key, rowsA, rowsB) && (key, 2) in v.trace.origin && rowsB != []
    requires row == EMPTY_STORE.(event := WRITTEN, rows := 1, commits := 1)
    requires reached(At(v, row, Proc(rowsA, PrInsert), Proc(rowsB, EvInsert), [a], []))
    ensures reached(At(v, row.(property := CLAIMED), Proc(rowsA, PrInsert), Proc(rowsB, PrAppend), [a], []))
  {
    var first, second := Proc(rowsA, PrInsert), Proc(rowsB, EvInsert);
    StepSecond(reached, key, v, row, first, second, [a], [], At(v, row, first, second.(pc := EvRead), [a], []));
    StepSecond(reached, key, v, row, first, second.(pc := EvRead), [a], [], At(v, row, first, second.(pc := PrInsert), [a], []));
    StepSecond(reached, key, v, row, first, second.(pc := PrInsert), [a], [],
               At(v, row.(property := CLAIMED), first, second.(pc := PrAppend), [a], []));
  }

  /** It stores its own properties and returns. */
  lemma PropertiesStored(reached: View -> bool, key: StatusKey, v: View, a: Envelope, b: Envelope,
                         rowsA: seq<Record>, rowsB: seq<Record>, row: Store)
    requires WritesReach(reached, key, rowsA, rowsB) && (key, 2) in v.trace.origin && v.trace.origin[(key, 2)] == b
    requires row == EMPTY_STORE.(event := WRITTEN, rows := 1, commits := 1, property := CLAIMED)
    requires reached(At(v, row, Proc(rowsA, PrInsert), Proc(rowsB, PrAppend), [a], []))
    ensures reached(At(v, row.(property := WRITTEN, batches := [rowsB]), Proc(rowsA, PrInsert), Proc(rowsB, Returned(true)), [a], [Batch(b, rowsB)]))
  {
    var first, second := Proc(rowsA, PrInsert), Proc(rowsB, PrAppend);
    var indexed, full := [Batch(b, rowsB)], row.(batches := [rowsB]);
    StepSecond(reached, key, v, row, first, second, [a], [], At(v, full, first, second.(pc := PrCommit), [a], indexed));
    var done := full.(property := WRITTEN);
    StepSecond(reached, key, v, full, first, second.(pc := PrCommit), [a], indexed, At(v, done, first, second.(pc := CatUpsert), [a], indexed));
    StepSecond(reached, key, v, done, first, second.(pc := CatUpsert), [a], indexed,
               At(v, done, first, second.(pc := Returned(true)), [a], indexed));
  }

  /** The first one finds properties inserted and returns without an error too. */
  lemma FirstReturns(reached: View -> bool, key: StatusKey, v: View, rowsA: seq<Record>, second: Proc, store: Store,
                     stored: seq<Envelope>, indexed: seq<Batch>)
    requires WritesReach(reached, key, rowsA, second.records) && (key, 1) in v.trace.origin && store.property == WRITTEN
    requires reached(At(v, store, Proc(rowsA, PrInsert), second, stored, indexed))
    ensures reached(At(v, store, Proc(rowsA, Returned(true)), second, stored, indexed))
  {
    var first := Proc(rowsA, PrInsert);
    StepFirst(reached, key, v, store, first, second, stored, indexed, At(v, store, first.(pc := PrRead), second, stored, indexed));
    StepFirst(reached, key, v, store, first.(pc := PrRead), second, stored, indexed, At(v, store, first.(pc := CatUpsert), second, stored, indexed));
    StepFirst(reached, key, v, store, first.(pc := CatUpsert), second, stored, indexed,
              At(v, store, first.(pc := Returned(true)), second, stored, indexed));
  }

  /** Both workers return without an error; the event row is the first one's, the properties the
      second one's. */
  lemma WritesMix(reached: View -> bool, key: StatusKey, v: View, a: Envelope, b: Envelope, rowsA: seq<Record>,
                  rowsB: seq<Record>) returns (store: Store)
    requires WritesReach(reached, key, rowsA, rowsB) && v.trace.origin == BothOrigins(key, a, b) && rowsA != [] && rowsB != []
    requires reached(At(v, EMPTY_STORE, Proc(rowsA, EvInsert), Proc(rowsB, EvInsert), [], []))
    ensures reached(At(v, store, Proc(rowsA, Returned(true)), Proc(rowsB, Returned(true)), [a], [Batch(b, rowsB)]))
    ensures store.rows == 1 && store.lost == 0 && store.batches == [rowsB]
  {
    RowStored(reached, key, v, a, rowsA, rowsB);
    store := EMPTY_STORE.(event := WRITTEN, rows := 1, commits := 1);
    PropertiesClaimed(reached, key, v, a, rowsA, rowsB, store);
    PropertiesStored(reached, key, v, a, b, rowsA, rowsB, store.(property := CLAIMED));
    store := store.(property := WRITTEN, batches := [rowsB]);
    FirstReturns(reached, key, v, rowsA, Proc(rowsB, Returned(true)), store, [a], [Batch(b, rowsB)]);
  }

  // ------------------------------------------------- fetching and marking both

  function Entry(offset: int): Commits.CommitEntry {
    Commits.CommitEntry(false, 1, Some(offset))
  }

  const NEW_SESSION := Kafka.Delivery(0, 0, 1, true, 0, 0, {}, Commits.EMPTY, map[], {}, {})

  const BOTH_HELD := Commits.CommitState(true, 1, 0, 0, map[0 := Entry(0), 1 := Entry(1)], 0, 1, 1)
  const SECOND_HELD := Commits.CommitState(true, 1, 1, 0, map[1 := Entry(1)], 0, 1, 1)

  /** Both records fetched, their tasks in these phases. */
  function Session(marked: int, committer: Commits.CommitState, first: Kafka.Phase, second: Kafka.Phase, handled: set<int>): Kafka.Delivery {
    Kafka.Delivery(0, marked, 1, true, 0, 2, {0, 1}, committer, map[0 := Kafka.Task(0, 1, first), 1 := Kafka.Task(1, 1, second)], handled, {})
  }

  lemma FetchBoth(k: Kafka.Config)
    requires k.log == map[0 := true, 1 := true]
    ensures Kafka.CanFetch(k, NEW_SESSION, 0, 0)
    ensures var d := Kafka.Fetch(NEW_SESSION, 0, 0);
            Kafka.CanFetch(k, d, 1, 1) && Kafka.Fetch(d, 1, 1) == Session(0, BOTH_HELD, Kafka.Queued, Kafka.Queued, {})
  {
    var one := Commits.EMPTY.Register(0, 1, Some(0));
    assert one == Commits.CommitState(true, 1, 0, 0, map[0 := Entry(0)], 0, 0, 0);
    assert one.Register(1, 1, Some(1)) == BOTH_HELD;
  }

  lemma {:induction false} CompleteFirst()
    ensures BOTH_HELD.Complete(0, 1) == SECOND_HELD && Kafka.MarkAll(0, Kafka.Runs.Offsets(BOTH_HELD.CompleteMarks(0, 1))) == 1
  {
    var d := BOTH_HELD.MarkDone(0);
    assert d.Ready() && d.Pop().states == map[1 := Entry(1)] && 1 in d.Pop().states && !d.Pop().Ready();
    assert d.Flush() == d.Pop() && d.FlushMarks() == [Commits.Mark(0, 0)];
    MarkOne(0, 0);
  }

  lemma {:induction false} CompleteSecond()
    ensures SECOND_HELD.Complete(1, 1) == Commits.EMPTY && Kafka.MarkAll(1, Kafka.Runs.Offsets(SECOND_HELD.CompleteMarks(1, 1))) == 2
  {
    var d := SECOND_HELD.MarkDone(1);
    assert d.Ready() && d.Pop().states == map[] && !d.Pop().Ready();
    assert d.Flush() == d.Pop() && d.FlushMarks() == [Commits.Mark(1, 1)];
    MarkOne(1, 1);
  }

  lemma {:induction false} MarkOne(position: int, offset: int)
    requires position <= offset + 1
    ensures Kafka.MarkAll(position, Kafka.Runs.Offsets([Commits.Mark(offset, offset)])) == offset + 1
  {
    var offsets := Kafka.Runs.Offsets([Commits.Mark(offset, offset)]);
    assert offsets == [offset] && offsets[..0] == [];
  }

  /** Steps of the consumer other than a handler's return lead from reached views to reached views. */
  ghost predicate DeliversReach(reached: View -> bool, k: Kafka.Config) {
    forall v: View, action | reached(v) && !HandlerReturn(action) && Kafka.CanDo(k, v.delivery, action) ::
      reached(v.(delivery := Kafka.Do(k, v.delivery, action)))
  }

  lemma DeliverOne(reached: View -> bool, k: Kafka.Config, v: View, d: Kafka.Delivery, action: Kafka.Action, next: Kafka.Delivery)
    requires DeliversReach(reached, k) && reached(v.(delivery := d))
    requires !HandlerReturn(action) && Kafka.CanDo(k, d, action) && next == Kafka.Do(k, d, action)
    ensures reached(v.(delivery := next))
  {
    assert v.(delivery := next) == v.(delivery := d).(delivery := Kafka.Do(k, v.(delivery := d).delivery, action));
  }

  /** A new session fetches both records and two workers pick them up. */
  lemma Started(reached: View -> bool, k: Kafka.Config, v: View)
    requires k.log == map[0 := true, 1 := true] && DeliversReach(reached, k)
    requires reached(v.(delivery := Kafka.Delivery(0, 0, 0, false, 0, 0, {}, Commits.EMPTY, map[], {}, {})))
    ensures reached(v.(delivery := Session(0, BOTH_HELD, Kafka.Attempting(1), Kafka.Attempting(1), {})))
  {
    DeliverOne(reached, k, v, Kafka.Delivery(0, 0, 0, false, 0, 0, {}, Commits.EMPTY, map[], {}, {}), Kafka.DoRebalance(1), NEW_SESSION);
    FetchBoth(k);
    var one := Kafka.Fetch(NEW_SESSION, 0, 0);
    DeliverOne(reached, k, v, NEW_SESSION, Kafka.DoFetch(0, 0), one);
    var both := Session(0, BOTH_HELD, Kafka.Queued, Kafka.Queued, {});
    DeliverOne(reached, k, v, one, Kafka.DoFetch(1, 1), both);
    PickUp(reached, k, v);
  }

  lemma PickUp(reached: View -> bool, k: Kafka.Config, v: View)
    requires k.log == map[0 := true, 1 := true] && DeliversReach(reached, k)
    requires reached(v.(delivery := Session(0, BOTH_HELD, Kafka.Queued, Kafka.Queued, {})))
    ensures reached(v.(delivery := Session(0, BOTH_HELD, Kafka.Attempting(1), Kafka.Attempting(1), {})))
  {
    var both := Session(0, BOTH_HELD, Kafka.Queued, Kafka.Queued, {});
    var first := Session(0, BOTH_HELD, Kafka.Attempting(1), Kafka.Queued, {});
    DeliverOne(reached, k, v, both, Kafka.DoTask(0, Kafka.Start), first);
    DeliverOne(reached, k, v, first, Kafka.DoTask(1, Kafka.Start), Session(0, BOTH_HELD, Kafka.Attempting(1), Kafka.Attempting(1), {}));
  }

  lemma FirstReleased(reached: View -> bool, k: Kafka.Config, v: View)
    requires DeliversReach(reached, k)
    requires reached(v.(delivery := Session(0, BOTH_HELD, Kafka.Releasing, Kafka.Releasing, {0, 1})))
    ensures reached(v.(delivery := Session(1, SECOND_HELD, Kafka.Finished, Kafka.Releasing, {0, 1})))
  {
    CompleteFirst();
    DeliverOne(reached, k, v, Session(0, BOTH_HELD, Kafka.Releasing, Kafka.Releasing, {0, 1}), Kafka.DoTask(0, Kafka.Release),
               Session(1, SECOND_HELD, Kafka.Finished, Kafka.Releasing, {0, 1}));
  }

  /** Once both handlers have returned, both offsets are marked and reach the broker. */
  lemma BothMarked(reached: View -> bool, k: Kafka.Config, v: View) returns (d: Kafka.Delivery)
    requires DeliversReach(reached, k)
    requires reached(v.(delivery := Session(0, BOTH_HELD, Kafka.Releasing, Kafka.Releasing, {0, 1})))
    ensures reached(v.(delivery := d)) && d.committed == 2 && d.deadLettered == {}
  {
    FirstReleased(reached, k, v);
    var none := Session(2, Commits.EMPTY, Kafka.Finished, Kafka.Finished, {0, 1});
    CompleteSecond();
    DeliverOne(reached, k, v, Session(1, SECOND_HELD, Kafka.Finished, Kafka.Releasing, {0, 1}), Kafka.DoTask(1, Kafka.Release), none);
    d := Kafka.Flush(none);
    DeliverOne(reached, k, v, none, Kafka.DoFlush, d);
  }

  lemma RunsDeliver(c: Config, key: StatusKey)
    ensures DeliversReach((v: View) => CanReach(c, key, v), DeliveryConfig(c))
  {
    forall v: View, action | CanReach(c, key, v) && !HandlerReturn(action) && Kafka.CanDo(DeliveryConfig(c), v.delivery, action)
      ensures CanReach(c, key, v.(delivery := Kafka.Do(DeliveryConfig(c), v.delivery, action)))
    {
      ThenDeliver(c, key, v, action);
    }
  }

  // ------------------------------------------------------------ the whole run

  const BOTH_ATTEMPTING := Session(0, BOTH_HELD, Kafka.Attempting(1), Kafka.Attempting(1), {})
  const BOTH_RELEASING := Session(0, BOTH_HELD, Kafka.Releasing, Kafka.Releasing, {0, 1})
  const BEFORE := Kafka.Delivery(0, 0, 0, false, 0, 0, {}, Commits.EMPTY, map[], {}, {})
  const START := View(BEFORE, EMPTY_MACHINE, map[], EMPTY_TRACE)

  /** Handler calls and their returns lead from reached views to reached views. */
  ghost predicate CallsReach(reached: View -> bool, c: Config, key: StatusKey) {
    && (forall v: View, id: int, worker: int, e: Envelope, records: seq<Record> | reached(v) && MayInvoke(c, key, v, id, worker, e, records) ::
          reached(InvokeSeen(key, v, id, worker, e, records)))
    && (forall v: View, id: int | reached(v) && MayFinish(key, v, id) :: reached(FinishSeen(c, key, v, id)))
  }

  lemma RunsCall(c: Config, key: StatusKey)
    ensures CallsReach((v: View) => CanReach(c, key, v), c, key)
  {
    forall v: View, id: int, worker: int, e: Envelope, records: seq<Record> | CanReach(c, key, v) && MayInvoke(c, key, v, id, worker, e, records)
      ensures CanReach(c, key, InvokeSeen(key, v, id, worker, e, records))
    {
      ThenInvoke(c, key, v, id, worker, e, records);
    }
    forall v: View, id: int | CanReach(c, key, v) && MayFinish(key, v, id) ensures CanReach(c, key, FinishSeen(c, key, v, id)) {
      ThenFinish(c, key, v, id);
    }
  }

  lemma FirstInvoked(reached: View -> bool, c: Config, key: StatusKey, a: Envelope, b: Envelope, rowsA: seq<Record>,
                     rowsB: seq<Record>) returns (v: View)
    requires Reuses(c, key, a, b, rowsA, rowsB) && CallsReach(reached, c, key) && reached(START.(delivery := BOTH_ATTEMPTING))
    ensures reached(v) && v == View(BOTH_ATTEMPTING, Machine(EMPTY_STORE, map[1 := Proc(rowsA, EvInsert)]), map[0 := Call(key, 1)],
                                    Trace(map[(key, 1) := a], [], []))
  {
    assert MayInvoke(c, key, START.(delivery := BOTH_ATTEMPTING), 0, 1, a, rowsA);
    v := InvokeSeen(key, START.(delivery := BOTH_ATTEMPTING), 0, 1, a, rowsA);
  }

  /** Both handlers run, each with a worker of its own. */
  lemma BothInvoked(reached: View -> bool, c: Config, key: StatusKey, a: Envelope, b: Envelope, rowsA: seq<Record>,
                    rowsB: seq<Record>) returns (v: View)
    requires Reuses(c, key, a, b, rowsA, rowsB) && CallsReach(reached, c, key) && reached(START.(delivery := BOTH_ATTEMPTING))
    ensures v.delivery == BOTH_ATTEMPTING && v.calls == map[0 := Call(key, 1), 1 := Call(key, 2)]
    ensures v.trace == Trace(BothOrigins(key, a, b), [], [])
    ensures reached(At(v, EMPTY_STORE, Proc(rowsA, EvInsert), Proc(rowsB, EvInsert), [], []))
  {
    var one := FirstInvoked(reached, c, key, a, b, rowsA, rowsB);
    assert MayInvoke(c, key, one, 1, 2, b, rowsB);
    v := InvokeSeen(key, one, 1, 2, b, rowsB);
    assert At(v, EMPTY_STORE, Proc(rowsA, EvInsert), Proc(rowsB, EvInsert), [], []) == v;
  }

  /** Both workers have returned, and so does the first handler. */
  lemma FirstFinishes(reached: View -> bool, c: Config, key: StatusKey, v: View) returns (w: View)
    requires CallsReach(reached, c, key) && reached(v)
    requires v.delivery == BOTH_ATTEMPTING && v.calls == map[0 := Call(key, 1), 1 := Call(key, 2)]
    requires 1 in v.machine.procs && v.machine.procs[1].pc == Returned(true)
    ensures reached(w) && w == v.(delivery := Session(0, BOTH_HELD, Kafka.Releasing, Kafka.Attempting(1), {0}), calls := map[1 := Call(key, 2)])
  {
    assert MayFinish(key, v, 0);
    w := FinishSeen(c, key, v, 0);
  }

  lemma SecondFinishes(reached: View -> bool, c: Config, key: StatusKey, v: View) returns (w: View)
    requires CallsReach(reached, c, key) && reached(v)
    requires v.delivery == Session(0, BOTH_HELD, Kafka.Releasing, Kafka.Attempting(1), {0}) && v.calls == map[1 := Call(key, 2)]
    requires 2 in v.machine.procs && v.machine.procs[2].pc == Returned(true)
    ensures reached(w) && w == v.(delivery := BOTH_RELEASING, calls := map[])
  {
    assert MayFinish(key, v, 1);
    w := FinishSeen(c, key, v, 1);
  }

  lemma BothDecode(c: Config, a: Envelope, b: Envelope)
    requires c.log == map[0 := Carries(a), 1 := Carries(b)]
    ensures DeliveryConfig(c).log == map[0 := true, 1 := true]
  {
  }

  lemma BothAttempting(reached: View -> bool, k: Kafka.Config)
    requires k.log == map[0 := true, 1 := true] && DeliversReach(reached, k) && reached(START)
    ensures reached(START.(delivery := BOTH_ATTEMPTING))
  {
    assert START.(delivery := BEFORE) == START;
    Started(reached, k, START);
  }

  /** Both handlers have returned after both workers have. */
  lemma BothReturned(reached: View -> bool, c: Config, key: StatusKey, v: View) returns (w: View)
    requires CallsReach(reached, c, key) && reached(v)
    requires v.delivery == BOTH_ATTEMPTING && v.calls == map[0 := Call(key, 1), 1 := Call(key, 2)]
    requires 1 in v.machine.procs && v.machine.procs[1].pc == Returned(true)
    requires 2 in v.machine.procs && v.machine.procs[2].pc == Returned(true)
    ensures reached(w.(delivery := BOTH_RELEASING)) && w.machine == v.machine && w.trace == v.trace
  {
    w := FirstFinishes(reached, c, key, v);
    w := SecondFinishes(reached, c, key, w);
    assert w == w.(delivery := BOTH_RELEASING);
  }

  lemma MixedView(reached: View -> bool, c: Config, key: StatusKey, a: Envelope, b: Envelope, rowsA: seq<Record>,
                  rowsB: seq<Record>) returns (v: View)
    requires Reuses(c, key, a, b, rowsA, rowsB) && CallsReach(reached, c, key) && WritesReach(reached, key, rowsA, rowsB)
    requires DeliversReach(reached, DeliveryConfig(c)) && reached(START)
    ensures reached(v) && v.delivery.committed == 2 && v.delivery.deadLettered == {}
    ensures v.trace.stored == [a] && v.trace.indexed == [Batch(b, rowsB)] && v.machine.store.lost == 0
  {
    BothDecode(c, a, b);
    BothAttempting(reached, DeliveryConfig(c));
    v := BothInvoked(reached, c, key, a, b, rowsA, rowsB);
    var store := WritesMix(reached, key, v, a, b, rowsA, rowsB);
    v := BothReturned(reached, c, key, At(v, store, Proc(rowsA, Returned(true)), Proc(rowsB, Returned(true)), [a], [Batch(b, rowsB)]));
    var d := BothMarked(reached, DeliveryConfig(c), v);
    v := v.(delivery := d);
  }

  /** Whatever the two envelopes contain, some run commits both offsets without any error or dead
      letter, and what it has stored is the row of one and the properties of the other. */
  lemma ReuseMixes(c: Config, key: StatusKey, a: Envelope, b: Envelope, rowsA: seq<Record>, rowsB: seq<Record>) returns (v: View)
    requires Reuses(c, key, a, b, rowsA, rowsB)
    ensures CanReach(c, key, v) && v.delivery.committed == 2 && v.delivery.deadLettered == {}
    ensures v.trace.stored == [a] && v.trace.indexed == [Batch(b, rowsB)] && v.machine.store.lost == 0
  {
    FromTheStart(c, key, BEFORE);
    RunsDeliver(c, key);
    RunsCall(c, key);
    var entriesA := Catalog.CondensedExists(rowsA);
    var entriesB := Catalog.CondensedExists(rowsB);
    RunsReach(c, key, rowsA, rowsB, entriesA, entriesB);
    v := MixedView((x: View) => CanReach(c, key, x), c, key, a, b, rowsA, rowsB);
  }

  // --------------------------------------------------- what reuse comes to

  /** The offset is committed and its event was not dead-lettered. */
  predicate Acknowledged(c: Config, s: System, offset: int) {
    offset in c.log && c.log[offset].Carries? && offset < s.delivery.committed && offset !in s.delivery.deadLettered
  }

  /** The row of the event is stored, and the batches under its key hold its own values. */
  ghost predicate Recorded(conv: Conversion, tr: Trace, e: Envelope) {
    e in tr.stored && CopiesAgree(conv, tr.indexed, e)
  }

  /** In every state of every run, all acknowledged events are recorded. */
  ghost predicate AlwaysRecorded(c: Config) {
    forall ss: seq<System>, trs: seq<Trace>, i: nat, o | TracedRun(c, ss, trs) && i < |ss| && Acknowledged(c, ss[i], o) ::
      Recorded(c.conv, trs[i], c.log[o].envelope)
  }

  /** Without reused keys every acknowledged event is recorded. */
  lemma UniqueKeysAlwaysRecorded(c: Config)
    requires forall e | InLog(c, e) :: KeyNotReused(c, e)
    ensures AlwaysRecorded(c)
  {
    forall ss: seq<System>, trs: seq<Trace>, i: nat, o | TracedRun(c, ss, trs) && i < |ss| && Acknowledged(c, ss[i], o)
      ensures Recorded(c.conv, trs[i], c.log[o].envelope)
    {
      AcknowledgedIsRecorded(c, ss, trs, i, o);
    }
  }

  lemma AcknowledgedIsRecorded(c: Config, ss: seq<System>, trs: seq<Trace>, i: nat, o: int)
    requires TracedRun(c, ss, trs) && i < |ss| && Acknowledged(c, ss[i], o) && KeyNotReused(c, c.log[o].envelope)
    ensures Recorded(c.conv, trs[i], c.log[o].envelope)
  {
    CommittedIsDurableOrDeadLettered(c, ss, i);
    TracedRunKeepsInv(c, ss, trs, i);
    DurableIsRecorded(c, ss[i], trs[i], o);
  }

  /** The state of a run that a view shows. */
  lemma Witness(c: Config, key: StatusKey, v: View) returns (ss: seq<System>, trs: seq<Trace>)
    requires CanReach(c, key, v)
    ensures TracedRun(c, ss, trs) && ss[|ss| - 1].delivery == v.delivery && trs[|ss| - 1] == v.trace
  {
    ss, trs :| TracedRun(c, ss, trs) && Shows(ss[|ss| - 1], trs[|ss| - 1], key, v);
  }

  lemma OnlyTwo(c: Config, a: Envelope, b: Envelope, e: Envelope)
    requires c.log == map[0 := Carries(a), 1 := Carries(b)] && InLog(c, e)
    ensures e == a || e == b
  {
    var o :| o in c.log && c.log[o] == Carries(e);
  }

  lemma SameTwiceAlwaysRecorded(c: Config, a: Envelope)
    requires c.log == map[0 := Carries(a), 1 := Carries(a)]
    ensures AlwaysRecorded(c)
  {
    forall e | InLog(c, e) ensures KeyNotReused(c, e) {
      forall x: Envelope | InLog(c, x) && EndToEnd.KeyOf(x.base) == EndToEnd.KeyOf(e.base) ensures x == e {
        OnlyTwo(c, a, a, x);
        OnlyTwo(c, a, a, e);
      }
    }
    UniqueKeysAlwaysRecorded(c);
  }

  lemma DifferentIsLost(c: Config, key: StatusKey, a: Envelope, b: Envelope, rowsA: seq<Record>, rowsB: seq<Record>)
    requires Reuses(c, key, a, b, rowsA, rowsB) && a != b
    ensures !AlwaysRecorded(c)
  {
    var v := ReuseMixes(c, key, a, b, rowsA, rowsB);
    var ss, trs := Witness(c, key, v);
    assert Acknowledged(c, ss[|ss| - 1], 1) && c.log[1].envelope == b;
    assert !Recorded(c.conv, trs[|ss| - 1], b);
  }

  /** With two records under one key, all acknowledged events are recorded in all runs if and only
      if the two envelopes are the same. */
  lemma RecordedIffNotReused(c: Config, key: StatusKey, a: Envelope, b: Envelope, rowsA: seq<Record>, rowsB: seq<Record>)
    requires Reuses(c, key, a, b, rowsA, rowsB)
    ensures AlwaysRecorded(c) <==> a == b
  {
    if a == b {
      SameTwiceAlwaysRecorded(c, a);
    } else {
      DifferentIsLost(c, key, a, b, rowsA, rowsB);
    }
  }

  // ------------------------------------------------------ a concrete reuse

  const BASE := Base("e1", "t", "p", "s", "web", "signup", "u", "", "", 1, 1, "api")
  const KEY := StatusKey("t", "p", "s", "e1")
  const FREE := Envelope(BASE, map["plan" := Text("free")], map[])
  const PAID := Envelope(BASE, map["plan" := Text("paid")], map[])

  lemma PlanRowIsValid(conv: Conversion, e: Envelope, plan: string, r: Record)
    requires e == Envelope(BASE, map["plan" := Text(plan)], map[]) && IsOwnRow(conv, e, r)
    ensures Catalog.Validate(r) == None
  {
  }

  lemma PlanFlattens(conv: Conversion, e: Envelope, plan: string) returns (rows: seq<Record>)
    requires e == Envelope(BASE, map["plan" := Text(plan)], map[])
    ensures Flatten(conv, e) == Ok(rows) && rows != [] && forall r | r in rows :: Catalog.Validate(r) == None
  {
    FlattenSucceeds(conv, e);
    rows := Flatten(conv, e).value;
    forall r | r in rows ensures Catalog.Validate(r) == None {
      FlattenIsOwnRows(conv, e, r);
      PlanRowIsValid(conv, e, plan, r);
    }
    var r := OwnRow(conv, e, SCOPE_EVENT, "plan");
    FlattenIsOwnRows(conv, e, r);
  }

  lemma BaseHasKey()
    ensures EndToEnd.KeyOf(BASE) == KEY && ValidKey(KEY)
  {
  }

  lemma PlanIsAccepted(conv: Conversion, e: Envelope, plan: string) returns (rows: seq<Record>)
    requires e == Envelope(BASE, map["plan" := Text(plan)], map[])
    ensures Prepare(conv, e) == Some(Job(KEY, rows)) && rows != []
  {
    rows := PlanFlattens(conv, e, plan);
    BaseHasKey();
  }

  /** Two deliveries of one event id with different plans, both acknowledged: the row of the first
      is stored, its plan is not, and of the second only the plan is. */
  lemma ReusedKeyLosesContent(conv: Conversion) returns (c: Config, ss: seq<System>, trs: seq<Trace>)
    ensures c.conv == conv && c.log == map[0 := Carries(FREE), 1 := Carries(PAID)] && TracedRun(c, ss, trs)
    ensures var s, tr := ss[|ss| - 1], trs[|ss| - 1];
            && Acknowledged(c, s, 0) && Acknowledged(c, s, 1)
            && FREE in tr.stored && !CopiesAgree(conv, tr.indexed, FREE) && PAID !in tr.stored
  {
    c := Config(map[0 := Carries(FREE), 1 := Carries(PAID)], 1, conv);
    var rowsA := PlanIsAccepted(conv, FREE, "free");
    var rowsB := PlanIsAccepted(conv, PAID, "paid");
    var v := ReuseMixes(c, KEY, FREE, PAID, rowsA, rowsB);
    ss, trs := Witness(c, KEY, v);
    OtherPlanDisagrees(conv, rowsB);
  }

  lemma OtherPlanDisagrees(conv: Conversion, rows: seq<Record>)
    ensures !CopiesAgree(conv, [Batch(PAID, rows)], FREE)
  {
    assert Reachable(SCOPE_EVENT, "plan");
    assert HasTyped(conv, FREE, SCOPE_EVENT, "plan", TypedText("free"));
    assert !HasTyped(conv, PAID, SCOPE_EVENT, "plan", TypedText("free"));
  }
}
