/** The Kafka consumer composed with the guarded writers.

    A handler call is one worker of the key-level write protocol; the consumer learns its
    outcome only when the worker has returned. All steps of all partitions' tasks, writers,
    crashes and rebalances interleave freely. */
module EndToEnd {
  import opened Prelude
  import opened Events
  import Catalog = PropertyCatalog
  import Kafka = KafkaDelivery
  import Guards = KeyGuards
  import Text

  datatype StatusKey = StatusKey(tenantId: string, projectId: string, sourceId: string, eventId: string)

  /** What the composed writer needs of an envelope it accepts. */
  datatype Job = Job(key: StatusKey, records: seq<Record>)

  function KeyOf(base: Base): StatusKey {
    StatusKey(base.tenantId, base.projectId, base.sourceId, base.eventId)
  }

  predicate ValidKey(key: StatusKey) {
    && Text.TrimSpace(key.tenantId) != "" && Text.TrimSpace(key.projectId) != ""
    && Text.TrimSpace(key.sourceId) != "" && Text.TrimSpace(key.eventId) != ""
  }

  /** The checks that run before the first statement: both property maps flatten, the rows can
      be catalogued, and the status key is complete. `None` is an error without any effect. */
  ghost function Prepare(conv: Conversion, e: Envelope): Option<Job> {
    var rows := Flatten(conv, e);
    if rows.Ok? && (forall r | r in rows.value :: Catalog.Validate(r) == None) && ValidKey(KeyOf(e.base))
    then Some(Job(KeyOf(e.base), rows.value))
    else None
  }

  datatype LogRecord = Malformed | Carries(envelope: Envelope)

  datatype Config = Config(log: map<int, LogRecord>, maxAttempts: nat, conv: Conversion)

  /** A handler call in progress. */
  datatype Call = Call(key: StatusKey, worker: int)

  datatype System = System(
    delivery: Kafka.Delivery,
    machines: map<StatusKey, Guards.Machine>,
    catalog: map<Catalog.CatalogKey, Catalog.Window>,
    calls: map<int, Call>)

  function DeliveryConfig(c: Config): Kafka.Config {
    Kafka.Config(map o | o in c.log :: c.log[o].Carries?, c.maxAttempts)
  }

  function MachineAt(s: System, key: StatusKey): Guards.Machine {
    if key in s.machines then s.machines[key] else Guards.EMPTY_MACHINE
  }

  /** The job of the message a task handles, if the writer accepts its envelope. */
  ghost function JobOf(c: Config, offset: int): Option<Job> {
    if offset in c.log && c.log[offset].Carries? then Prepare(c.conv, c.log[offset].envelope) else None
  }

  predicate Calling(s: System, id: int) {
    id in s.delivery.tasks && s.delivery.tasks[id].phase.Attempting?
  }

  datatype Action =
    | Deliver(action: Kafka.Action)
    | Invoke(id: int, worker: int)
    | Write(key: StatusKey, worker: int, reply: Guards.Reply, entries: seq<Catalog.Entry>)
    | Finish(id: int)
    | Refuse(id: int)

  predicate HandlerReturn(a: Kafka.Action) {
    a.DoTask? && a.event.HandlerReturns?
  }

  /** The catalog after a worker's statement: only the catalog upsert touches it. */
  function CatalogAfter(catalog: map<Catalog.CatalogKey, Catalog.Window>, p: Guards.Proc, reply: Guards.Reply, entries: seq<Catalog.Entry>)
    : map<Catalog.CatalogKey, Catalog.Window>
  {
    if p.pc == Guards.CatUpsert && Guards.Applied(reply) then Catalog.UpsertAll(catalog, entries) else catalog
  }

  ghost predicate CanInvoke(c: Config, s: System, id: int, worker: int) {
    && Calling(s, id) && id !in s.calls
    && var job := JobOf(c, s.delivery.tasks[id].offset);
       job.Some? && worker !in MachineAt(s, job.value.key).procs
  }

  /** The handler starts a worker for the envelope. */
  function Invoked(s: System, id: int, worker: int, job: Job): System
    requires worker !in MachineAt(s, job.key).procs
  {
    s.(machines := s.machines[job.key := Guards.Spawn(MachineAt(s, job.key), worker, job.records)],
       calls := s.calls[id := Call(job.key, worker)])
  }

  ghost predicate CanWrite(s: System, key: StatusKey, worker: int, reply: Guards.Reply, entries: seq<Catalog.Entry>) {
    && Guards.CanStep(MachineAt(s, key), worker, reply)
    && Catalog.Condenses(entries, MachineAt(s, key).procs[worker].records)
  }

  /** A worker issues one statement. */
  function Wrote(s: System, key: StatusKey, worker: int, reply: Guards.Reply, entries: seq<Catalog.Entry>): System
    requires Guards.CanStep(MachineAt(s, key), worker, reply)
  {
    s.(machines := s.machines[key := Guards.Step(MachineAt(s, key), worker, reply)],
       catalog := CatalogAfter(s.catalog, MachineAt(s, key).procs[worker], reply, entries))
  }

  ghost predicate CanDo(c: Config, s: System, a: Action) {
    match a
    case Deliver(action) => !HandlerReturn(action) && Kafka.CanDo(DeliveryConfig(c), s.delivery, action)
    case Invoke(id, worker) => CanInvoke(c, s, id, worker)
    case Write(key, worker, reply, entries) => CanWrite(s, key, worker, reply, entries)
    case Finish(id) =>
      && Calling(s, id) && id in s.calls
      && var m := MachineAt(s, s.calls[id].key);
         s.calls[id].worker in m.procs && !Guards.Active(m.procs[s.calls[id].worker])
    case Refuse(id) => Calling(s, id) && id !in s.calls && JobOf(c, s.delivery.tasks[id].offset).None?
  }

  function TaskReturns(c: Config, s: System, id: int, ok: bool): System
    requires Calling(s, id)
  {
    s.(delivery := Kafka.TaskStep(DeliveryConfig(c), s.delivery, id, Kafka.HandlerReturns(ok)), calls := s.calls - {id})
  }

  ghost function Do(c: Config, s: System, a: Action): System
    requires CanDo(c, s, a)
  {
    match a
    case Deliver(action) => s.(delivery := Kafka.Do(DeliveryConfig(c), s.delivery, action))
    case Invoke(id, worker) => Invoked(s, id, worker, JobOf(c, s.delivery.tasks[id].offset).value)
    case Write(key, worker, reply, entries) => Wrote(s, key, worker, reply, entries)
    case Finish(id) =>
      var m := MachineAt(s, s.calls[id].key);
      TaskReturns(c, s, id, m.procs[s.calls[id].worker].pc == Guards.Returned(true))
    case Refuse(id) => TaskReturns(c, s, id, false)
  }

  ghost predicate Init(c: Config, s: System) {
    && Kafka.Init(DeliveryConfig(c), s.delivery)
    && s.machines == map[] && s.catalog == map[] && s.calls == map[]
  }

  // -------------------------------------------------------------- invariant

  ghost predicate MachineInv(m: Guards.Machine) {
    Guards.Inv(m) && Guards.BatchesFromWorkers(m)
  }

  /** Workers write rows of accepted log records under their own key. */
  ghost predicate FromLog(c: Config, key: StatusKey, records: seq<Record>) {
    exists o :: o in c.log && JobOf(c, o) == Some(Job(key, records))
  }

  /** One key: the write protocol's invariant, and successful workers are covered by the catalog. */
  ghost predicate KeyInv(c: Config, catalog: map<Catalog.CatalogKey, Catalog.Window>, key: StatusKey, m: Guards.Machine) {
    && MachineInv(m)
    && forall w | w in m.procs ::
         && FromLog(c, key, m.procs[w].records)
         && (m.procs[w].pc == Guards.Returned(true) ==> Catalog.Covers(catalog, m.procs[w].records))
  }

  ghost predicate StorageInv(c: Config, s: System) {
    forall key | key in s.machines :: KeyInv(c, s.catalog, key, s.machines[key])
  }

  /** The call of a task runs the job of the task's own message. */
  ghost predicate CallInv(c: Config, s: System) {
    forall id | id in s.calls ::
      && id in s.delivery.tasks
      && s.calls[id].key in s.machines && s.calls[id].worker in s.machines[s.calls[id].key].procs
      && JobOf(c, s.delivery.tasks[id].offset)
           == Some(Job(s.calls[id].key, s.machines[s.calls[id].key].procs[s.calls[id].worker].records))
  }

  /** A worker for this very job has returned without an error. */
  ghost predicate Written(c: Config, s: System, offset: int) {
    var job := JobOf(c, offset);
    && job.Some? && job.value.key in s.machines
    && exists w :: w in s.machines[job.value.key].procs && s.machines[job.value.key].procs[w] == Guards.Proc(job.value.records, Guards.Returned(true))
  }

  ghost predicate HandledInv(c: Config, s: System) {
    forall o | o in s.delivery.handled :: Written(c, s, o)
  }

  ghost predicate SystemInv(c: Config, s: System) {
    && Kafka.DeliveryInv(DeliveryConfig(c), s.delivery)
    && StorageInv(c, s) && CallInv(c, s) && HandledInv(c, s)
  }

  /** Storage only gains: every worker that has returned stays where it is. */
  ghost predicate Keeps(s: System, s': System) {
    forall key, w | key in s.machines && w in s.machines[key].procs ::
      && key in s'.machines && w in s'.machines[key].procs
      && s'.machines[key].procs[w].records == s.machines[key].procs[w].records
      && (s.machines[key].procs[w].pc == Guards.Returned(true) ==> s'.machines[key].procs[w].pc == Guards.Returned(true))
  }

  lemma KeepsHandled(c: Config, s: System, s': System)
    requires HandledInv(c, s) && Keeps(s, s')
    ensures forall o | o in s.delivery.handled :: Written(c, s', o)
  {
    forall o | o in s.delivery.handled ensures Written(c, s', o) {
      assert Written(c, s, o);
      var job := JobOf(c, o).value;
      var w :| w in s.machines[job.key].procs && s.machines[job.key].procs[w] == Guards.Proc(job.records, Guards.Returned(true));
      assert s'.machines[job.key].procs[w] == Guards.Proc(job.records, Guards.Returned(true));
    }
  }

  lemma KeepsCalls(c: Config, s: System, s': System)
    requires CallInv(c, s) && Keeps(s, s')
    requires s'.calls == s.calls && s'.delivery == s.delivery
    ensures CallInv(c, s')
  {
  }

  lemma DeliveryKeepsTasks(c: Kafka.Config, d: Kafka.Delivery, a: Kafka.Action)
    requires Kafka.CanDo(c, d, a)
    ensures var d' := Kafka.Do(c, d, a);
            && (forall id | id in d.tasks :: id in d'.tasks && d'.tasks[id].offset == d.tasks[id].offset)
            && (!HandlerReturn(a) ==> d'.handled == d.handled)
            && (a.DoTask? && a.event == Kafka.HandlerReturns(false) ==> d'.handled == d.handled)
            && (a.DoTask? && a.event == Kafka.HandlerReturns(true) ==> d'.handled == d.handled + {d.tasks[a.id].offset})
  {
  }

  lemma DeliverKeepsInv(c: Config, s: System, action: Kafka.Action)
    requires SystemInv(c, s) && CanDo(c, s, Deliver(action))
    ensures SystemInv(c, Do(c, s, Deliver(action)))
  {
    var s' := Do(c, s, Deliver(action));
    DeliveryKeepsTasks(DeliveryConfig(c), s.delivery, action);
    Kafka.StepKeepsInv(DeliveryConfig(c), s.delivery, action);
    forall o | o in s'.delivery.handled ensures Written(c, s', o) {
      assert Written(c, s, o);
    }
  }

  lemma ReturnKeepsHandled(c: Config, s: System, id: int, ok: bool)
    requires HandledInv(c, s) && Calling(s, id)
    requires ok ==> Written(c, s, s.delivery.tasks[id].offset)
    ensures HandledInv(c, TaskReturns(c, s, id, ok))
  {
    var s' := TaskReturns(c, s, id, ok);
    DeliveryKeepsTasks(DeliveryConfig(c), s.delivery, Kafka.DoTask(id, Kafka.HandlerReturns(ok)));
    forall o | o in s'.delivery.handled ensures Written(c, s', o) {
      assert Written(c, s, o);
    }
  }

  lemma ReturnKeepsCalls(c: Config, s: System, id: int, ok: bool)
    requires CallInv(c, s) && Calling(s, id)
    ensures CallInv(c, TaskReturns(c, s, id, ok))
  {
    DeliveryKeepsTasks(DeliveryConfig(c), s.delivery, Kafka.DoTask(id, Kafka.HandlerReturns(ok)));
  }

  lemma ReturnKeepsInv(c: Config, s: System, id: int, ok: bool)
    requires SystemInv(c, s) && Calling(s, id)
    requires ok ==> Written(c, s, s.delivery.tasks[id].offset)
    ensures SystemInv(c, TaskReturns(c, s, id, ok))
  {
    Kafka.StepKeepsInv(DeliveryConfig(c), s.delivery, Kafka.DoTask(id, Kafka.HandlerReturns(ok)));
    ReturnKeepsHandled(c, s, id, ok);
    ReturnKeepsCalls(c, s, id, ok);
  }

  lemma FinishKeepsInv(c: Config, s: System, id: int)
    requires SystemInv(c, s) && CanDo(c, s, Finish(id))
    ensures SystemInv(c, Do(c, s, Finish(id)))
  {
    var call := s.calls[id];
    var p := MachineAt(s, call.key).procs[call.worker];
    ReturnKeepsInv(c, s, id, p.pc == Guards.Returned(true));
  }

  // -------------------------------------------------- the storage-side steps

  lemma EmptyKeyInv(c: Config, catalog: map<Catalog.CatalogKey, Catalog.Window>, key: StatusKey)
    ensures KeyInv(c, catalog, key, Guards.EMPTY_MACHINE)
  {
    Guards.EmptyInv();
  }

  lemma SpawnKeepsKeyInv(c: Config, catalog: map<Catalog.CatalogKey, Catalog.Window>, key: StatusKey, m: Guards.Machine, w: int, records: seq<Record>)
    requires KeyInv(c, catalog, key, m) && w !in m.procs && FromLog(c, key, records)
    ensures KeyInv(c, catalog, key, Guards.Spawn(m, w, records))
  {
    Guards.SpawnKeepsPropertyInv(m, w, records);
    Guards.SpawnKeepsEventInv(m, w, records);
    SpawnKeepsBatchOrigin(m, w, records);
  }

  lemma SpawnKeepsBatchOrigin(m: Guards.Machine, w: int, records: seq<Record>)
    requires Guards.BatchesFromWorkers(m) && w !in m.procs
    ensures Guards.BatchesFromWorkers(Guards.Spawn(m, w, records))
  {
    var m' := Guards.Spawn(m, w, records);
    forall b | b in m'.store.batches ensures exists v :: v in m'.procs && m'.procs[v].records == b {
      var v :| v in m.procs && m.procs[v].records == b;
      assert m'.procs[v].records == b;
    }
  }

  lemma StepKeepsMachineInv(m: Guards.Machine, w: int, reply: Guards.Reply)
    requires MachineInv(m) && Guards.CanStep(m, w, reply)
    ensures MachineInv(Guards.Step(m, w, reply))
  {
    Guards.StepKeepsPropertyInv(m, w, reply);
    Guards.StepKeepsEventInv(m, w, reply);
    Guards.StepKeepsBatchOrigin(m, w, reply);
  }

  lemma StepKeepsKeyInv(c: Config, catalog: map<Catalog.CatalogKey, Catalog.Window>, key: StatusKey, m: Guards.Machine,
                        w: int, reply: Guards.Reply, entries: seq<Catalog.Entry>)
    requires KeyInv(c, catalog, key, m) && Guards.CanStep(m, w, reply) && Catalog.Condenses(entries, m.procs[w].records)
    ensures KeyInv(c, CatalogAfter(catalog, m.procs[w], reply, entries), key, Guards.Step(m, w, reply))
  {
    StepKeepsMachineInv(m, w, reply);
    StepKeepsCover(catalog, m, w, reply, entries);
  }

  lemma StepKeepsCover(catalog: map<Catalog.CatalogKey, Catalog.Window>, m: Guards.Machine, w: int, reply: Guards.Reply, entries: seq<Catalog.Entry>)
    requires MachineInv(m) && Guards.CanStep(m, w, reply) && Catalog.Condenses(entries, m.procs[w].records)
    requires forall v | v in m.procs && m.procs[v].pc == Guards.Returned(true) :: Catalog.Covers(catalog, m.procs[v].records)
    ensures var after, m' := CatalogAfter(catalog, m.procs[w], reply, entries), Guards.Step(m, w, reply);
            forall v | v in m'.procs && m'.procs[v].pc == Guards.Returned(true) :: Catalog.Covers(after, m'.procs[v].records)
  {
    var after, m' := CatalogAfter(catalog, m.procs[w], reply, entries), Guards.Step(m, w, reply);
    CatalogWidens(catalog, m.procs[w], reply, entries);
    forall v | v in m'.procs && m'.procs[v].pc == Guards.Returned(true) ensures Catalog.Covers(after, m'.procs[v].records) {
      if v == w {
        ReturnIsCovered(catalog, m, w, reply, entries);
      } else {
        Catalog.WidenKeepsCover(catalog, after, m.procs[v].records);
      }
    }
  }

  lemma CatalogWidens(catalog: map<Catalog.CatalogKey, Catalog.Window>, p: Guards.Proc, reply: Guards.Reply, entries: seq<Catalog.Entry>)
    ensures Catalog.Widens(catalog, CatalogAfter(catalog, p, reply, entries))
  {
    Catalog.UpsertOnlyWidens(catalog, entries, |entries|);
  }

  lemma ReturnIsCovered(catalog: map<Catalog.CatalogKey, Catalog.Window>, m: Guards.Machine, w: int, reply: Guards.Reply, entries: seq<Catalog.Entry>)
    requires Guards.Inv(m) && Guards.CanStep(m, w, reply) && Catalog.Condenses(entries, m.procs[w].records)
    requires Guards.ProcAfter(m.store, m.procs[w], reply).pc == Guards.Returned(true)
    ensures Catalog.Covers(CatalogAfter(catalog, m.procs[w], reply, entries), m.procs[w].records)
  {
    if m.procs[w].records != [] {
      assert m.procs[w].pc == Guards.CatUpsert && Guards.Applied(reply);
      Catalog.UpsertCovers(catalog, entries, m.procs[w].records);
    }
  }

  lemma WidenKeepsKeyInv(c: Config, a: map<Catalog.CatalogKey, Catalog.Window>, b: map<Catalog.CatalogKey, Catalog.Window>, key: StatusKey, m: Guards.Machine)
    requires KeyInv(c, a, key, m) && Catalog.Widens(a, b)
    ensures KeyInv(c, b, key, m)
  {
    forall w | w in m.procs && m.procs[w].pc == Guards.Returned(true) ensures Catalog.Covers(b, m.procs[w].records) {
      Catalog.WidenKeepsCover(a, b, m.procs[w].records);
    }
  }

  ghost predicate KeepsWorkers(m: Guards.Machine, m': Guards.Machine) {
    forall w | w in m.procs ::
      && w in m'.procs && m'.procs[w].records == m.procs[w].records
      && (m.procs[w].pc == Guards.Returned(true) ==> m'.procs[w].pc == Guards.Returned(true))
  }

  lemma StepKeepsWorkers(m: Guards.Machine, w: int, reply: Guards.Reply)
    requires Guards.CanStep(m, w, reply)
    ensures KeepsWorkers(m, Guards.Step(m, w, reply))
  {
  }

  lemma SpawnKeepsWorkers(m: Guards.Machine, w: int, records: seq<Record>)
    requires w !in m.procs
    ensures KeepsWorkers(m, Guards.Spawn(m, w, records))
  {
  }

  lemma MachineAtInv(c: Config, s: System, key: StatusKey)
    requires StorageInv(c, s)
    ensures KeyInv(c, s.catalog, key, MachineAt(s, key))
  {
    EmptyKeyInv(c, s.catalog, key);
  }

  lemma ReplaceMachine(c: Config, s: System, s': System, key: StatusKey, m: Guards.Machine)
    requires StorageInv(c, s)
    requires s'.machines == s.machines[key := m]
    requires Catalog.Widens(s.catalog, s'.catalog)
    requires KeyInv(c, s'.catalog, key, m)
    requires KeepsWorkers(MachineAt(s, key), m)
    ensures StorageInv(c, s') && Keeps(s, s')
  {
    forall k | k in s'.machines ensures KeyInv(c, s'.catalog, k, s'.machines[k]) {
      if k != key {
        WidenKeepsKeyInv(c, s.catalog, s'.catalog, k, s.machines[k]);
      }
    }
  }

  lemma WriteKeepsInv(c: Config, s: System, key: StatusKey, worker: int, reply: Guards.Reply, entries: seq<Catalog.Entry>)
    requires SystemInv(c, s) && CanWrite(s, key, worker, reply, entries)
    ensures SystemInv(c, Wrote(s, key, worker, reply, entries))
  {
    var s' := Wrote(s, key, worker, reply, entries);
    WriteKeepsStorage(c, s, key, worker, reply, entries);
    KeepsHandled(c, s, s');
    KeepsCalls(c, s, s');
  }

  lemma WriteKeepsStorage(c: Config, s: System, key: StatusKey, worker: int, reply: Guards.Reply, entries: seq<Catalog.Entry>)
    requires StorageInv(c, s) && CanWrite(s, key, worker, reply, entries)
    ensures StorageInv(c, Wrote(s, key, worker, reply, entries))
    ensures Keeps(s, Wrote(s, key, worker, reply, entries))
  {
    var m := MachineAt(s, key);
    MachineAtInv(c, s, key);
    StepKeepsKeyInv(c, s.catalog, key, m, worker, reply, entries);
    StepKeepsWorkers(m, worker, reply);
    CatalogWidens(s.catalog, m.procs[worker], reply, entries);
    ReplaceMachine(c, s, Wrote(s, key, worker, reply, entries), key, Guards.Step(m, worker, reply));
  }

  lemma InvokeKeepsStorage(c: Config, s: System, id: int, worker: int, job: Job)
    requires StorageInv(c, s) && worker !in MachineAt(s, job.key).procs && FromLog(c, job.key, job.records)
    ensures StorageInv(c, Invoked(s, id, worker, job)) && Keeps(s, Invoked(s, id, worker, job))
  {
    var m := MachineAt(s, job.key);
    MachineAtInv(c, s, job.key);
    SpawnKeepsKeyInv(c, s.catalog, job.key, m, worker, job.records);
    SpawnKeepsWorkers(m, worker, job.records);
    assert Catalog.Widens(s.catalog, s.catalog);
    ReplaceMachine(c, s, Invoked(s, id, worker, job), job.key, Guards.Spawn(m, worker, job.records));
  }

  lemma InvokeKeepsCalls(c: Config, s: System, id: int, worker: int, job: Job)
    requires CallInv(c, s) && worker !in MachineAt(s, job.key).procs && Keeps(s, Invoked(s, id, worker, job))
    requires id in s.delivery.tasks && JobOf(c, s.delivery.tasks[id].offset) == Some(job)
    ensures CallInv(c, Invoked(s, id, worker, job))
  {
    var s' := Invoked(s, id, worker, job);
    forall other | other in s.calls && other != id
      ensures s.calls[other].key in s'.machines && s.calls[other].worker in s'.machines[s.calls[other].key].procs
      ensures s'.machines[s.calls[other].key].procs[s.calls[other].worker].records
                == s.machines[s.calls[other].key].procs[s.calls[other].worker].records
    {
    }
  }

  lemma InvokeKeepsInv(c: Config, s: System, id: int, worker: int, job: Job)
    requires SystemInv(c, s) && CanInvoke(c, s, id, worker) && JobOf(c, s.delivery.tasks[id].offset) == Some(job)
    ensures SystemInv(c, Invoked(s, id, worker, job))
  {
    JobIsFromLog(c, s.delivery.tasks[id].offset, job);
    InvokeKeepsStorage(c, s, id, worker, job);
    KeepsHandled(c, s, Invoked(s, id, worker, job));
    InvokeKeepsCalls(c, s, id, worker, job);
  }

  lemma JobIsFromLog(c: Config, offset: int, job: Job)
    requires JobOf(c, offset) == Some(job)
    ensures FromLog(c, job.key, job.records)
  {
  }

  lemma StepKeepsInv(c: Config, s: System, a: Action)
    requires SystemInv(c, s) && CanDo(c, s, a)
    ensures SystemInv(c, Do(c, s, a))
  {
    match a
    case Deliver(action) => DeliverKeepsInv(c, s, action);
    case Invoke(id, worker) => InvokeKeepsInv(c, s, id, worker, JobOf(c, s.delivery.tasks[id].offset).value);
    case Write(key, worker, reply, entries) => WriteKeepsInv(c, s, key, worker, reply, entries);
    case Finish(id) => FinishKeepsInv(c, s, id);
    case Refuse(id) => ReturnKeepsInv(c, s, id, false);
  }

  // ---------------------------------------------------------------- all runs

  ghost predicate Next(c: Config, s: System, s': System) {
    exists a :: CanDo(c, s, a) && s' == Do(c, s, a)
  }

  ghost predicate Run(c: Config, ss: seq<System>) {
    && ss != [] && Init(c, ss[0])
    && forall i | 0 <= i < |ss| - 1 :: Next(c, ss[i], ss[i + 1])
  }

  lemma {:induction false} RunKeepsInv(c: Config, ss: seq<System>, i: nat)
    requires Run(c, ss) && i < |ss|
    ensures SystemInv(c, ss[i])
  {
    if i == 0 {
      Kafka.InitEstablishes(DeliveryConfig(c), ss[0].delivery);
    } else {
      RunKeepsInv(c, ss, i - 1);
      assert Next(c, ss[i - 1], ss[i - 1 + 1]);
      var a :| CanDo(c, ss[i - 1], a) && ss[i] == Do(c, ss[i - 1], a);
      StepKeepsInv(c, ss[i - 1], a);
    }
  }

  /** The event of a log record is durably stored: at least one event row and, if it has
      properties, exactly one property batch under its key and a catalog entry that covers
      each of its rows. */
  ghost predicate Durable(c: Config, s: System, offset: int) {
    var job := JobOf(c, offset);
    && job.Some?
    && MachineAt(s, job.value.key).store.rows >= 1
    && (job.value.records != [] ==> |MachineAt(s, job.value.key).store.batches| == 1)
    && Catalog.Covers(s.catalog, job.value.records)
  }

  lemma WrittenIsDurable(c: Config, s: System, offset: int)
    requires StorageInv(c, s) && Written(c, s, offset)
    ensures Durable(c, s, offset)
  {
    var job := JobOf(c, offset).value;
    var m := s.machines[job.key];
    var w :| w in m.procs && m.procs[w] == Guards.Proc(job.records, Guards.Returned(true));
    assert KeyInv(c, s.catalog, job.key, m);
    assert Guards.PropertyProcInv(m.store, m.procs[w]) && Guards.EventProcInv(m.store, m.procs[w]);
  }

  /** End to end: in every reachable state of the consumer composed with the guarded writers,
      every log offset below the committed position either has a dead-letter record or is
      durably stored. */
  lemma CommittedIsDurableOrDeadLettered(c: Config, ss: seq<System>, i: nat)
    requires Run(c, ss) && i < |ss|
    ensures forall o | o in c.log && o < ss[i].delivery.committed ::
              o in ss[i].delivery.deadLettered || Durable(c, ss[i], o)
  {
    RunKeepsInv(c, ss, i);
    var s := ss[i];
    forall o | o in c.log && o < s.delivery.committed && o !in s.delivery.deadLettered ensures Durable(c, s, o) {
      assert o in DeliveryConfig(c).log;
      assert Kafka.Settled(s.delivery, o);
      WrittenIsDurable(c, s, o);
    }
  }

  lemma BatchIsFromLog(c: Config, catalog: map<Catalog.CatalogKey, Catalog.Window>, key: StatusKey, m: Guards.Machine, batch: seq<Record>) returns (o: int)
    requires KeyInv(c, catalog, key, m) && batch in m.store.batches
    ensures o in c.log && JobOf(c, o) == Some(Job(key, batch))
  {
    var w :| w in m.procs && m.procs[w].records == batch;
    assert FromLog(c, key, m.procs[w].records);
    o :| o in c.log && JobOf(c, o) == Some(Job(key, batch));
  }

  /** The one property batch of a key holds the rows of a log record with that key; if all log
      records with that key agree on their rows, it holds those rows. */
  lemma BatchIsTheEventsRows(c: Config, ss: seq<System>, i: nat, offset: int)
    requires Run(c, ss) && i < |ss| && Durable(c, ss[i], offset)
    requires JobOf(c, offset).value.records != []
    requires forall o | o in c.log && JobOf(c, o).Some? && JobOf(c, o).value.key == JobOf(c, offset).value.key ::
               JobOf(c, o) == JobOf(c, offset)
    ensures MachineAt(ss[i], JobOf(c, offset).value.key).store.batches == [JobOf(c, offset).value.records]
  {
    RunKeepsInv(c, ss, i);
    var job := JobOf(c, offset).value;
    MachineAtInv(c, ss[i], job.key);
    OnlyBatch(c, ss[i].catalog, MachineAt(ss[i], job.key), job);
  }

  lemma OnlyBatch(c: Config, catalog: map<Catalog.CatalogKey, Catalog.Window>, m: Guards.Machine, job: Job)
    requires KeyInv(c, catalog, job.key, m) && |m.store.batches| == 1
    requires forall o | o in c.log && JobOf(c, o).Some? && JobOf(c, o).value.key == job.key :: JobOf(c, o) == Some(job)
    ensures m.store.batches == [job.records]
  {
    var o := BatchIsFromLog(c, catalog, job.key, m, m.store.batches[0]);
    assert m.store.batches == [m.store.batches[0]];
  }
}
