/** What a run of the composed system appended: every event row and every property batch, with
    the envelope it was written for. */
module History {
  import opened Prelude
  import opened Events
  import opened EndToEnd
  import opened PropertyIndex
  import Guards = KeyGuards

  /** The envelope each worker writes, and the appends that took effect, in order. */
  datatype Trace = Trace(origin: map<(StatusKey, int), Envelope>, stored: seq<Envelope>, indexed: seq<Batch>)

  const EMPTY_TRACE := Trace(map[], [], [])

  function Appended(tr: Trace, key: StatusKey, worker: int, p: Guards.Proc, reply: Guards.Reply): Trace {
    if !Guards.Applied(reply) || (key, worker) !in tr.origin then tr
    else if p.pc == Guards.EvAppend then tr.(stored := tr.stored + [tr.origin[(key, worker)]])
    else if p.pc == Guards.PrAppend then tr.(indexed := tr.indexed + [Batch(tr.origin[(key, worker)], p.records)])
    else tr
  }

  ghost function TraceAfter(c: Config, s: System, tr: Trace, a: Action): Trace
    requires CanDo(c, s, a)
  {
    match a
    case Invoke(id, worker) =>
      var offset := s.delivery.tasks[id].offset;
      tr.(origin := tr.origin[(JobOf(c, offset).value.key, worker) := c.log[offset].envelope])
    case Write(key, worker, reply, _) => Appended(tr, key, worker, MachineAt(s, key).procs[worker], reply)
    case _ => tr
  }

  ghost predicate TracedNext(c: Config, s: System, tr: Trace, s': System, tr': Trace) {
    exists a :: CanDo(c, s, a) && s' == Do(c, s, a) && tr' == TraceAfter(c, s, tr, a)
  }

  /** A run together with what it appended so far at each of its states. */
  ghost predicate TracedRun(c: Config, ss: seq<System>, trs: seq<Trace>) {
    && Run(c, ss) && |trs| == |ss| && trs[0] == EMPTY_TRACE
    && forall i | 0 <= i < |ss| - 1 :: TracedNext(c, ss[i], trs[i], ss[i + 1], trs[i + 1])
  }

  ghost predicate TracedUpTo(c: Config, ss: seq<System>, trs: seq<Trace>) {
    && trs != [] && |trs| <= |ss| && trs[0] == EMPTY_TRACE
    && forall i | 0 <= i < |trs| - 1 :: TracedNext(c, ss[i], trs[i], ss[i + 1], trs[i + 1])
  }

  lemma ExtendTraced(c: Config, ss: seq<System>, trs: seq<Trace>, tr: Trace)
    requires TracedUpTo(c, ss, trs) && |trs| < |ss|
    requires TracedNext(c, ss[|trs| - 1], trs[|trs| - 1], ss[|trs|], tr)
    ensures TracedUpTo(c, ss, trs + [tr])
  {
    var longer := trs + [tr];
    forall i | 0 <= i < |longer| - 1 ensures TracedNext(c, ss[i], longer[i], ss[i + 1], longer[i + 1]) {
      if i < |trs| - 1 {
        assert TracedNext(c, ss[i], trs[i], ss[i + 1], trs[i + 1]);
      }
    }
  }

  /** Every run has such a record. */
  lemma EveryRunIsTraced(c: Config, ss: seq<System>) returns (trs: seq<Trace>)
    requires Run(c, ss)
    ensures TracedRun(c, ss, trs)
  {
    trs := [EMPTY_TRACE];
    while |trs| < |ss|
      invariant TracedUpTo(c, ss, trs)
    {
      var n := |trs|;
      assert Next(c, ss[n - 1], ss[n - 1 + 1]);
      var tr := TraceOne(c, ss[n - 1], trs[n - 1], ss[n]);
      ExtendTraced(c, ss, trs, tr);
      trs := trs + [tr];
    }
  }

  lemma TraceOne(c: Config, s: System, tr: Trace, s': System) returns (tr': Trace)
    requires Next(c, s, s')
    ensures TracedNext(c, s, tr, s', tr')
  {
    var a :| CanDo(c, s, a) && s' == Do(c, s, a);
    tr' := TraceAfter(c, s, tr, a);
  }

  // -------------------------------------------------------------- invariant

  ghost predicate InLog(c: Config, e: Envelope) {
    exists o :: o in c.log && c.log[o] == Carries(e)
  }

  /** `records` are the rows of an accepted log envelope with that key. */
  ghost predicate Sourced(c: Config, key: StatusKey, e: Envelope, records: seq<Record>) {
    InLog(c, e) && Prepare(c.conv, e) == Some(Job(key, records))
  }

  /** Which rows an envelope may be written with, and under which key. */
  type Source = (StatusKey, Envelope, seq<Record>) -> bool

  ghost function SourceOf(c: Config): Source {
    (key: StatusKey, e: Envelope, records: seq<Record>) => Sourced(c, key, e, records)
  }

  /** Envelopes are written under their own key. */
  ghost predicate OwnKeys(src: Source) {
    forall key, e, records | src(key, e, records) :: key == KeyOf(e.base)
  }

  lemma LogUsesOwnKeys(c: Config)
    ensures OwnKeys(SourceOf(c))
  {
  }

  /** The rows appended for a key. */
  function RowsFor(stored: seq<Envelope>, key: StatusKey, n: nat): nat
    requires n <= |stored|
  {
    if n == 0 then 0 else RowsFor(stored, key, n - 1) + One(KeyOf(stored[n - 1].base) == key)
  }

  /** The batches appended for a key, in order. */
  function BatchesFor(indexed: seq<Batch>, key: StatusKey, n: nat): seq<seq<Record>>
    requires n <= |indexed|
  {
    if n == 0 then []
    else
      var sofar := BatchesFor(indexed, key, n - 1);
      if KeyOf(indexed[n - 1].event.base) == key then sofar + [indexed[n - 1].rows] else sofar
  }

  /** One key: its workers write accepted log envelopes, and its counters are the recorded appends. */
  ghost predicate KeyTraced(src: Source, key: StatusKey, m: Guards.Machine, tr: Trace) {
    && (forall w | w in m.procs :: (key, w) in tr.origin && src(key, tr.origin[(key, w)], m.procs[w].records))
    && m.store.rows == RowsFor(tr.stored, key, |tr.stored|)
    && m.store.batches == BatchesFor(tr.indexed, key, |tr.indexed|)
  }

  ghost predicate HasSource(src: Source, e: Envelope) {
    exists records :: src(KeyOf(e.base), e, records)
  }

  ghost predicate AppendsSourced(src: Source, tr: Trace) {
    && (forall i | 0 <= i < |tr.stored| :: HasSource(src, tr.stored[i]))
    && (forall i | 0 <= i < |tr.indexed| :: src(KeyOf(tr.indexed[i].event.base), tr.indexed[i].event, tr.indexed[i].rows))
  }

  ghost predicate MachinesTraced(src: Source, s: System, tr: Trace) {
    forall key :: KeyTraced(src, key, MachineAt(s, key), tr)
  }

  /** The record agrees with the state, and everything in it was written for the log. */
  ghost predicate TraceInv(c: Config, s: System, tr: Trace) {
    AppendsSourced(SourceOf(c), tr) && MachinesTraced(SourceOf(c), s, tr)
  }

  lemma {:induction false} RowsForPrefix(stored: seq<Envelope>, e: Envelope, key: StatusKey, n: nat)
    requires n <= |stored|
    ensures RowsFor(stored + [e], key, n) == RowsFor(stored, key, n)
  {
    if n > 0 {
      RowsForPrefix(stored, e, key, n - 1);
    }
  }

  lemma {:induction false} BatchesForPrefix(indexed: seq<Batch>, b: Batch, key: StatusKey, n: nat)
    requires n <= |indexed|
    ensures BatchesFor(indexed + [b], key, n) == BatchesFor(indexed, key, n)
  {
    if n > 0 {
      BatchesForPrefix(indexed, b, key, n - 1);
    }
  }

  lemma {:induction false} OneMoreRow(stored: seq<Envelope>, e: Envelope, key: StatusKey, more: seq<Envelope>)
    requires more == stored + [e]
    ensures RowsFor(more, key, |more|) == RowsFor(stored, key, |stored|) + One(KeyOf(e.base) == key)
  {
    RowsForPrefix(stored, e, key, |stored|);
  }

  lemma {:induction false} OneMoreBatch(indexed: seq<Batch>, b: Batch, key: StatusKey, more: seq<Batch>)
    requires more == indexed + [b]
    ensures var sofar := BatchesFor(indexed, key, |indexed|);
            BatchesFor(more, key, |more|) == if KeyOf(b.event.base) == key then sofar + [b.rows] else sofar
  {
    BatchesForPrefix(indexed, b, key, |indexed|);
  }

  /** What a statement adds to the store. */
  lemma StatementAppends(s: Guards.Store, p: Guards.Proc, reply: Guards.Reply)
    ensures var t := Guards.StoreAfter(s, p, reply);
            && t.rows == s.rows + One(Guards.Applied(reply) && p.pc == Guards.EvAppend)
            && t.batches == if Guards.Applied(reply) && p.pc == Guards.PrAppend then s.batches + [p.records] else s.batches
  {
  }

  lemma OriginHasKey(src: Source, key: StatusKey, m: Guards.Machine, tr: Trace, w: int)
    requires OwnKeys(src) && KeyTraced(src, key, m, tr) && w in m.procs
    ensures (key, w) in tr.origin && KeyOf(tr.origin[(key, w)].base) == key
  {
    assert src(key, tr.origin[(key, w)], m.procs[w].records);
  }

  /** The trace of a statement: one more row, one more batch, or nothing, of the worker's own key. */
  lemma {:induction false} WriteTraces(src: Source, key: StatusKey, m: Guards.Machine, tr: Trace, w: int, reply: Guards.Reply, other: StatusKey)
    requires OwnKeys(src) && KeyTraced(src, key, m, tr) && Guards.CanStep(m, w, reply)
    ensures var p, now := m.procs[w], Appended(tr, key, w, m.procs[w], reply);
            && now.origin == tr.origin
            && RowsFor(now.stored, other, |now.stored|) ==
                 RowsFor(tr.stored, other, |tr.stored|) + One(other == key && Guards.Applied(reply) && p.pc == Guards.EvAppend)
            && BatchesFor(now.indexed, other, |now.indexed|) ==
                 if other == key && Guards.Applied(reply) && p.pc == Guards.PrAppend
                 then BatchesFor(tr.indexed, other, |tr.indexed|) + [p.records] else BatchesFor(tr.indexed, other, |tr.indexed|)
  {
    var e, now := tr.origin[(key, w)], Appended(tr, key, w, m.procs[w], reply);
    OriginHasKey(src, key, m, tr, w);
    if now.stored != tr.stored {
      OneMoreRow(tr.stored, e, other, now.stored);
    }
    if now.indexed != tr.indexed {
      OneMoreBatch(tr.indexed, Batch(e, m.procs[w].records), other, now.indexed);
    }
  }

  lemma WriteKeepsAppends(src: Source, key: StatusKey, m: Guards.Machine, tr: Trace, w: int, reply: Guards.Reply)
    requires OwnKeys(src) && KeyTraced(src, key, m, tr) && Guards.CanStep(m, w, reply) && AppendsSourced(src, tr)
    ensures AppendsSourced(src, Appended(tr, key, w, m.procs[w], reply))
  {
    OriginHasKey(src, key, m, tr, w);
    var e := tr.origin[(key, w)];
    assert src(key, e, m.procs[w].records);
    assert HasSource(src, e);
  }

  lemma WriteKeepsKey(src: Source, key: StatusKey, m: Guards.Machine, tr: Trace, w: int, reply: Guards.Reply, now: Trace)
    requires OwnKeys(src) && KeyTraced(src, key, m, tr) && Guards.CanStep(m, w, reply) && now == Appended(tr, key, w, m.procs[w], reply)
    ensures KeyTraced(src, key, Guards.Step(m, w, reply), now)
  {
    StatementAppends(m.store, m.procs[w], reply);
    WriteTraces(src, key, m, tr, w, reply, key);
    var m' := Guards.Step(m, w, reply);
    forall v | v in m'.procs ensures (key, v) in now.origin && src(key, now.origin[(key, v)], m'.procs[v].records) {
      assert v in m.procs && m'.procs[v].records == m.procs[v].records;
    }
  }

  lemma WriteKeepsOther(src: Source, key: StatusKey, m: Guards.Machine, tr: Trace, w: int, reply: Guards.Reply, now: Trace,
                        other: StatusKey, n: Guards.Machine)
    requires OwnKeys(src) && KeyTraced(src, key, m, tr) && Guards.CanStep(m, w, reply) && now == Appended(tr, key, w, m.procs[w], reply)
    requires other != key && KeyTraced(src, other, n, tr)
    ensures KeyTraced(src, other, n, now)
  {
    WriteTraces(src, key, m, tr, w, reply, other);
  }

  lemma WriteKeepsTrace(src: Source, s: System, tr: Trace, key: StatusKey, w: int, reply: Guards.Reply, s': System, now: Trace)
    requires OwnKeys(src) && AppendsSourced(src, tr) && MachinesTraced(src, s, tr) && Guards.CanStep(MachineAt(s, key), w, reply)
    requires s'.machines == s.machines[key := Guards.Step(MachineAt(s, key), w, reply)]
    requires now == Appended(tr, key, w, MachineAt(s, key).procs[w], reply)
    ensures AppendsSourced(src, now) && MachinesTraced(src, s', now)
  {
    assert KeyTraced(src, key, MachineAt(s, key), tr);
    WriteKeepsAppends(src, key, MachineAt(s, key), tr, w, reply);
    forall other ensures KeyTraced(src, other, MachineAt(s', other), now) {
      if other == key {
        WriteKeepsKey(src, key, MachineAt(s, key), tr, w, reply, now);
      } else {
        assert KeyTraced(src, other, MachineAt(s, other), tr);
        WriteKeepsOther(src, key, MachineAt(s, key), tr, w, reply, now, other, MachineAt(s, other));
      }
    }
  }

  lemma InvokeKeepsKey(src: Source, key: StatusKey, m: Guards.Machine, tr: Trace, w: int, e: Envelope, records: seq<Record>, now: Trace)
    requires KeyTraced(src, key, m, tr) && w !in m.procs && src(key, e, records)
    requires now == tr.(origin := tr.origin[(key, w) := e])
    ensures KeyTraced(src, key, Guards.Spawn(m, w, records), now)
  {
  }

  lemma InvokeKeepsTrace(src: Source, s: System, tr: Trace, key: StatusKey, w: int, e: Envelope, records: seq<Record>, s': System, now: Trace)
    requires MachinesTraced(src, s, tr) && w !in MachineAt(s, key).procs && src(key, e, records)
    requires s'.machines == s.machines[key := Guards.Spawn(MachineAt(s, key), w, records)]
    requires now == tr.(origin := tr.origin[(key, w) := e])
    ensures MachinesTraced(src, s', now)
  {
    forall other ensures KeyTraced(src, other, MachineAt(s', other), now) {
      assert KeyTraced(src, other, MachineAt(s, other), tr);
      if other == key {
        InvokeKeepsKey(src, key, MachineAt(s, key), tr, w, e, records, now);
      }
    }
  }

  lemma JobIsSourced(c: Config, offset: int)
    requires JobOf(c, offset).Some?
    ensures offset in c.log && c.log[offset].Carries?
    ensures Sourced(c, JobOf(c, offset).value.key, c.log[offset].envelope, JobOf(c, offset).value.records)
  {
  }

  lemma SameMachinesKeepTrace(src: Source, s: System, tr: Trace, s': System)
    requires MachinesTraced(src, s, tr) && s'.machines == s.machines
    ensures MachinesTraced(src, s', tr)
  {
    forall key ensures KeyTraced(src, key, MachineAt(s', key), tr) {
      assert KeyTraced(src, key, MachineAt(s, key), tr);
    }
  }

  lemma StepKeepsTrace(c: Config, s: System, tr: Trace, a: Action)
    requires TraceInv(c, s, tr) && CanDo(c, s, a)
    ensures TraceInv(c, Do(c, s, a), TraceAfter(c, s, tr, a))
  {
    var src, s', now := SourceOf(c), Do(c, s, a), TraceAfter(c, s, tr, a);
    LogUsesOwnKeys(c);
    match a
    case Invoke(id, worker) =>
      var offset := s.delivery.tasks[id].offset;
      JobIsSourced(c, offset);
      InvokeKeepsTrace(src, s, tr, JobOf(c, offset).value.key, worker, c.log[offset].envelope, JobOf(c, offset).value.records, s', now);
    case Write(key, worker, reply, _) => WriteKeepsTrace(src, s, tr, key, worker, reply, s', now);
    case _ => SameMachinesKeepTrace(src, s, tr, s');
  }

  lemma TracedNextKeeps(c: Config, s: System, tr: Trace, s': System, tr': Trace)
    requires TraceInv(c, s, tr) && TracedNext(c, s, tr, s', tr')
    ensures TraceInv(c, s', tr')
  {
    var a :| CanDo(c, s, a) && s' == Do(c, s, a) && tr' == TraceAfter(c, s, tr, a);
    StepKeepsTrace(c, s, tr, a);
  }

  /** In every state of a traced run, each key's rows and batches are the recorded appends, and
      every append was made for an accepted record of the log. */
  lemma {:induction false} TracedRunKeepsInv(c: Config, ss: seq<System>, trs: seq<Trace>, i: nat)
    requires TracedRun(c, ss, trs) && i < |ss|
    ensures TraceInv(c, ss[i], trs[i])
  {
    if i > 0 {
      TracedRunKeepsInv(c, ss, trs, i - 1);
      assert TracedNext(c, ss[i - 1], trs[i - 1], ss[i - 1 + 1], trs[i - 1 + 1]);
      TracedNextKeeps(c, ss[i - 1], trs[i - 1], ss[i], trs[i]);
    }
  }
}
