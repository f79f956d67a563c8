/** The guarded write of one event key, at the granularity of single statements.

    Any number of workers write the same key. Each worker runs the composed writer: claim
    the event checkpoint, append the event row, commit or roll back; then the same for the
    property checkpoint and the property batch; then the catalog upsert. Between any two
    statements every other worker may act. A statement may succeed, report an error with or
    without having taken effect, or be the last thing its worker ever does. The only
    assumption about the store is that an append that reports an error appended nothing. */
module KeyGuards {
  import opened Prelude
  import opened Events

  datatype Status = Absent | Processing | Inserted | Failed

  /** A status row; `attempt` counts the write claims taken on it. */
  datatype Checkpoint = Checkpoint(status: Status, attempt: nat)

  /** The two checkpoints of a key, its event rows and its property batches. `commits` counts
      the event commits that took effect, `lost` the appended rows whose commit did not. */
  datatype Store = Store(
    event: Checkpoint, rows: nat, commits: nat, lost: nat,
    property: Checkpoint, batches: seq<seq<Record>>)

  const EMPTY_STORE := Store(Checkpoint(Absent, 0), 0, 0, 0, Checkpoint(Absent, 0), [])

  /** The statement a worker is about to issue, or how it ended. */
  datatype Pc =
    | EvInsert | EvRead | EvReclaim | EvAppend | EvCommit | EvRollback
    | PrInsert | PrRead | PrReclaim | PrAppend | PrCommit | PrRollback
    | CatUpsert
    | Returned(ok: bool)
    | Crashed

  /** A worker with the property rows of the envelope it writes. */
  datatype Proc = Proc(records: seq<Record>, pc: Pc)

  datatype Reply =
    | Replied
    | Failure(applied: bool)   // the worker sees an error
    | Death(applied: bool)     // the worker sees nothing any more

  predicate Active(p: Proc) {
    !p.pc.Returned? && !p.pc.Crashed?
  }

  predicate Possible(p: Proc, reply: Reply) {
    Active(p) && (reply.Failure? && reply.applied ==> p.pc != EvAppend && p.pc != PrAppend)
  }

  /** An unconditional status update touches the row only if it exists. */
  function SetStatus(c: Checkpoint, status: Status): Checkpoint {
    if c.status == Absent then c else c.(status := status)
  }

  /** What the pending statement does to the store when it takes effect. */
  function Effect(s: Store, p: Proc): Store {
    match p.pc
    case EvInsert => if s.event.status == Absent then s.(event := Checkpoint(Processing, 1)) else s
    case EvReclaim =>
      if s.event.status == Absent then s
      else s.(event := Checkpoint(Processing, s.event.attempt + 1))
    case EvAppend => s.(rows := s.rows + 1)
    case EvCommit => s.(event := SetStatus(s.event, Inserted), commits := s.commits + 1)
    case EvRollback => s.(event := SetStatus(s.event, Failed))
    case PrInsert => if s.property.status == Absent then s.(property := Checkpoint(Processing, 1)) else s
    case PrReclaim =>
      if s.property.status == Failed then s.(property := Checkpoint(Processing, s.property.attempt + 1))
      else s
    case PrAppend => s.(batches := s.batches + [p.records])
    case PrCommit => s.(property := SetStatus(s.property, Inserted))
    case PrRollback => s.(property := SetStatus(s.property, Failed))
    case _ => s
  }

  /** Where a worker goes once the event row is known to exist. */
  function AfterEvent(p: Proc): Pc {
    if p.records == [] then Returned(true) else PrInsert
  }

  /** Where a worker goes when its statement replies; `s` is the store the statement saw. */
  function OnReply(s: Store, p: Proc): Pc {
    match p.pc
    case EvInsert => if s.event.status == Absent then EvAppend else EvRead
    case EvRead =>
      if s.event.status == Inserted then AfterEvent(p)
      else if s.event.status == Absent then Returned(false)
      else EvReclaim
    case EvReclaim => EvAppend
    case EvAppend => EvCommit
    case EvCommit => AfterEvent(p)
    case EvRollback => Returned(false)
    case PrInsert => if s.property.status == Absent then PrAppend else PrRead
    case PrRead =>
      if s.property.status == Inserted then CatUpsert
      else if s.property.status == Failed then PrReclaim
      else Returned(false)
    case PrReclaim => if s.property.status == Failed then PrAppend else Returned(false)
    case PrAppend => PrCommit
    case PrCommit => CatUpsert
    case PrRollback => Returned(false)
    case CatUpsert => Returned(true)
    case _ => p.pc
  }

  /** Where a worker goes when its statement reports an error. */
  function OnError(p: Proc): Pc {
    if p.pc == EvAppend then EvRollback
    else if p.pc == PrAppend then PrRollback
    else Returned(false)
  }

  predicate Applied(reply: Reply) {
    reply.Replied? || reply.applied
  }

  /** An append whose worker dies with it, and a commit that does not take effect, leave a row
      that no commit accounts for. */
  predicate LosesCommit(p: Proc, reply: Reply) {
    (p.pc == EvAppend && reply == Death(true)) || (p.pc == EvCommit && !Applied(reply))
  }

  function StoreAfter(s: Store, p: Proc, reply: Reply): Store {
    var t := if Applied(reply) then Effect(s, p) else s;
    if LosesCommit(p, reply) then t.(lost := t.lost + 1) else t
  }

  function ProcAfter(s: Store, p: Proc, reply: Reply): Proc {
    match reply
    case Replied => p.(pc := OnReply(s, p))
    case Failure(_) => p.(pc := OnError(p))
    case Death(_) => p.(pc := Crashed)
  }

  datatype Machine = Machine(store: Store, procs: map<int, Proc>)

  const EMPTY_MACHINE := Machine(EMPTY_STORE, map[])

  predicate CanStep(m: Machine, w: int, reply: Reply) {
    w in m.procs && Possible(m.procs[w], reply)
  }

  function Step(m: Machine, w: int, reply: Reply): Machine
    requires CanStep(m, w, reply)
  {
    Machine(StoreAfter(m.store, m.procs[w], reply), m.procs[w := ProcAfter(m.store, m.procs[w], reply)])
  }

  function Spawn(m: Machine, w: int, records: seq<Record>): Machine
    requires w !in m.procs
  {
    m.(procs := m.procs[w := Proc(records, EvInsert)])
  }

  /** One atomic action on the key. */
  ghost predicate Next(m: Machine, m': Machine) {
    || (exists w, records :: w !in m.procs && m' == Spawn(m, w, records))
    || (exists w, reply :: CanStep(m, w, reply) && m' == Step(m, w, reply))
  }

  /** What may happen to the key from state `m` on. */
  ghost predicate Continues(ms: seq<Machine>, m: Machine) {
    && ms != [] && ms[0] == m
    && forall i | 0 <= i < |ms| - 1 :: Next(ms[i], ms[i + 1])
  }

  /** A finite run of the key from its empty state. */
  ghost predicate Run(ms: seq<Machine>) {
    Continues(ms, EMPTY_MACHINE)
  }

  // ------------------------------------------------------- property batches

  /** A worker between its property claim and the end of it. */
  predicate Holds(p: Proc) {
    p.pc == PrAppend || p.pc == PrCommit || p.pc == PrRollback
  }

  /** A worker that saw the property index committed. */
  predicate PastProperty(p: Proc) {
    p.records != [] && (p.pc == CatUpsert || p.pc == Returned(true))
  }

  ghost predicate PropertyStoreInv(s: Store) {
    && (s.property.status in {Absent, Failed} ==> s.batches == [])
    && (s.property.status == Inserted ==> |s.batches| == 1)
    && |s.batches| <= 1
  }

  ghost predicate PropertyProcInv(s: Store, p: Proc) {
    && (Holds(p) ==> s.property.status == Processing)
    && (p.pc in {PrAppend, PrRollback} ==> s.batches == [])
    && (p.pc == PrCommit ==> |s.batches| == 1)
    && (PastProperty(p) ==> s.property.status == Inserted)
    && (p.pc in {PrRead, PrReclaim} ==> s.property.status != Absent)
    && (p.records == [] ==> !p.pc.PrInsert? && !p.pc.PrRead? && !p.pc.PrReclaim? && !Holds(p) && !p.pc.CatUpsert?)
  }

  /** At most one live claim holder; a failed, absent or inserted checkpoint has none; the
      number of batches follows the checkpoint, and under `processing` the holder. */
  ghost predicate PropertyInv(m: Machine) {
    && PropertyStoreInv(m.store)
    && (forall w | w in m.procs :: PropertyProcInv(m.store, m.procs[w]))
    && (forall v, w | v in m.procs && w in m.procs && Holds(m.procs[v]) && Holds(m.procs[w]) :: v == w)
  }

  lemma OwnPropertyStep(s: Store, p: Proc, reply: Reply)
    requires PropertyStoreInv(s) && PropertyProcInv(s, p) && Possible(p, reply)
    ensures PropertyStoreInv(StoreAfter(s, p, reply))
    ensures PropertyProcInv(StoreAfter(s, p, reply), ProcAfter(s, p, reply))
    ensures Holds(ProcAfter(s, p, reply)) && !Holds(p) ==> s.property.status in {Absent, Failed}
  {
  }

  lemma PropertyInterference(s: Store, p: Proc, reply: Reply, q: Proc)
    requires PropertyProcInv(s, p) && PropertyProcInv(s, q) && Possible(p, reply)
    requires !(Holds(p) && Holds(q))
    ensures PropertyProcInv(StoreAfter(s, p, reply), q)
  {
  }

  /** Every statement of every worker, with every reply, keeps the claim discipline. In
      particular a worker that read `failed` before somebody else reclaimed the row loses the
      compare-and-set and appends nothing. */
  lemma StepKeepsPropertyInv(m: Machine, w: int, reply: Reply)
    requires PropertyInv(m) && CanStep(m, w, reply)
    ensures PropertyInv(Step(m, w, reply))
  {
    var s, p := m.store, m.procs[w];
    OwnPropertyStep(s, p, reply);
    forall v | v in m.procs && v != w ensures PropertyProcInv(StoreAfter(s, p, reply), m.procs[v]) {
      PropertyInterference(s, p, reply, m.procs[v]);
    }
    var m' := Step(m, w, reply);
    forall v | v in m.procs && v != w && Holds(m'.procs[w]) ensures !Holds(m.procs[v]) {
      assert PropertyProcInv(s, m.procs[v]);
    }
  }

  /** Every appended batch is the rows of some worker's envelope. */
  ghost predicate BatchesFromWorkers(m: Machine) {
    forall b | b in m.store.batches :: exists w :: w in m.procs && m.procs[w].records == b
  }

  lemma StepKeepsBatchOrigin(m: Machine, w: int, reply: Reply)
    requires BatchesFromWorkers(m) && CanStep(m, w, reply)
    ensures BatchesFromWorkers(Step(m, w, reply))
  {
    var m' := Step(m, w, reply);
    forall b | b in m'.store.batches ensures exists v :: v in m'.procs && m'.procs[v].records == b {
      if b in m.store.batches {
        var v :| v in m.procs && m.procs[v].records == b;
        assert m'.procs[v].records == b;
      } else {
        assert m'.procs[w].records == b;
      }
    }
  }

  // ------------------------------------------------------------- event rows

  predicate PastEvent(p: Proc) {
    p.pc.PrInsert? || p.pc.PrRead? || p.pc.PrReclaim? || Holds(p) || p.pc.CatUpsert? || p.pc == Returned(true)
  }

  predicate BeforeClaim(p: Proc) {
    p.pc.EvInsert? || p.pc == Returned(false) || p.pc.Crashed?
  }

  ghost predicate EventStoreInv(s: Store) {
    && (s.event.status == Absent ==> s.event.attempt == 0 && s.rows == 0)
    && (s.event.status == Inserted ==> s.rows >= 1 && s.commits >= 1)
  }

  ghost predicate EventProcInv(s: Store, p: Proc) {
    && (p.pc.EvCommit? || PastEvent(p) ==> s.rows >= 1)
    && (PastEvent(p) ==> s.commits >= 1)
    && (!BeforeClaim(p) ==> s.event.status != Absent)
  }

  function WorkersAt(procs: map<int, Proc>, pc: Pc): set<int> {
    set w | w in procs && procs[w].pc == pc
  }

  /** Rows never outnumber claims, and every row is accounted for: its commit took effect, or
      was lost, or is still pending. */
  ghost predicate EventInv(m: Machine) {
    && EventStoreInv(m.store)
    && (forall w | w in m.procs :: EventProcInv(m.store, m.procs[w]))
    && m.store.rows + |WorkersAt(m.procs, EvAppend)| <= m.store.event.attempt
    && m.store.rows == m.store.commits + m.store.lost + |WorkersAt(m.procs, EvCommit)|
  }

  lemma OwnEventStep(s: Store, p: Proc, reply: Reply)
    requires EventStoreInv(s) && EventProcInv(s, p) && Possible(p, reply)
    ensures var t, q := StoreAfter(s, p, reply), ProcAfter(s, p, reply);
            && EventStoreInv(t) && EventProcInv(t, q)
            && (t.rows - s.rows) + One(q.pc.EvAppend?) - One(p.pc.EvAppend?) <= t.event.attempt - s.event.attempt
            && t.rows - s.rows == (t.commits - s.commits) + (t.lost - s.lost) + One(q.pc.EvCommit?) - One(p.pc.EvCommit?)
  {
  }

  lemma EventInterference(s: Store, p: Proc, reply: Reply, q: Proc)
    requires EventProcInv(s, q) && Possible(p, reply)
    ensures EventProcInv(StoreAfter(s, p, reply), q)
  {
  }

  lemma WorkersAtUpdate(procs: map<int, Proc>, w: int, p: Proc, pc: Pc)
    ensures |WorkersAt(procs[w := p], pc)| ==
            |WorkersAt(procs, pc)| + One(p.pc == pc) - One(w in procs && procs[w].pc == pc)
  {
    var rest := WorkersAt(procs, pc) - {w};
    assert WorkersAt(procs[w := p], pc) == if p.pc == pc then rest + {w} else rest;
    assert WorkersAt(procs, pc) == if w in procs && procs[w].pc == pc then rest + {w} else rest;
  }

  lemma SpawnKeepsEventInv(m: Machine, w: int, records: seq<Record>)
    requires EventInv(m) && w !in m.procs
    ensures EventInv(Spawn(m, w, records))
  {
    WorkersAtUpdate(m.procs, w, Proc(records, EvInsert), EvAppend);
    WorkersAtUpdate(m.procs, w, Proc(records, EvInsert), EvCommit);
  }

  lemma StepKeepsEventInv(m: Machine, w: int, reply: Reply)
    requires EventInv(m) && CanStep(m, w, reply)
    ensures EventInv(Step(m, w, reply))
  {
    var s, p := m.store, m.procs[w];
    var q := ProcAfter(s, p, reply);
    OwnEventStep(s, p, reply);
    forall v | v in m.procs ensures EventProcInv(StoreAfter(s, p, reply), m.procs[v]) {
      EventInterference(s, p, reply, m.procs[v]);
    }
    WorkersAtUpdate(m.procs, w, q, EvAppend);
    WorkersAtUpdate(m.procs, w, q, EvCommit);
  }

  // ---------------------------------------------------------------- all runs

  ghost predicate Inv(m: Machine) {
    PropertyInv(m) && EventInv(m)
  }

  lemma NextKeepsInv(m: Machine, m': Machine)
    requires Inv(m) && Next(m, m')
    ensures Inv(m')
  {
    if w, records :| w !in m.procs && m' == Spawn(m, w, records) {
      SpawnKeepsPropertyInv(m, w, records);
      SpawnKeepsEventInv(m, w, records);
    } else {
      var w, reply :| CanStep(m, w, reply) && m' == Step(m, w, reply);
      StepKeepsPropertyInv(m, w, reply);
      StepKeepsEventInv(m, w, reply);
    }
  }

  lemma SpawnKeepsPropertyInv(m: Machine, w: int, records: seq<Record>)
    requires PropertyInv(m) && w !in m.procs
    ensures PropertyInv(Spawn(m, w, records))
  {
    var m' := Spawn(m, w, records);
    assert forall v | v in m'.procs :: v == w || m'.procs[v] == m.procs[v];
  }

  lemma EmptyInv()
    ensures Inv(EMPTY_MACHINE)
  {
    assert WorkersAt(EMPTY_MACHINE.procs, EvAppend) == {} && WorkersAt(EMPTY_MACHINE.procs, EvCommit) == {};
  }

  lemma {:induction false} RunKeepsInv(ms: seq<Machine>, i: nat)
    requires Run(ms) && i < |ms|
    ensures Inv(ms[i])
  {
    if i == 0 {
      EmptyInv();
    } else {
      RunKeepsInv(ms, i - 1);
      assert Next(ms[i - 1], ms[i - 1 + 1]);
      NextKeepsInv(ms[i - 1], ms[i]);
    }
  }

  /** In every run, at every moment: at most one property batch exists, the checkpoint and the
      number of batches agree, and at most one worker holds the property claim. */
  lemma AtMostOneBatch(ms: seq<Machine>, i: nat)
    requires Run(ms) && i < |ms|
    ensures var m := ms[i];
            && |m.store.batches| <= 1
            && (m.store.property.status == Failed ==> |m.store.batches| == 0 && forall w | w in m.procs :: !Holds(m.procs[w]))
            && (m.store.property.status == Inserted ==> |m.store.batches| == 1 && forall w | w in m.procs :: !Holds(m.procs[w]))
            && (forall v, w | v in m.procs && w in m.procs && Holds(m.procs[v]) && Holds(m.procs[w]) :: v == w)
  {
    RunKeepsInv(ms, i);
    assert forall w | w in ms[i].procs :: PropertyProcInv(ms[i].store, ms[i].procs[w]);
  }

  /** In every run, at every moment: a worker that returned without an error left at least one
      event row whose commit took effect and, when its envelope has properties, exactly one property
      batch under a checkpoint that says inserted. */
  lemma SuccessIsDurable(ms: seq<Machine>, i: nat, w: int)
    requires Run(ms) && i < |ms| && w in ms[i].procs && ms[i].procs[w].pc == Returned(true)
    ensures ms[i].store.rows >= 1 && ms[i].store.commits >= 1
    ensures ms[i].procs[w].records != [] ==> |ms[i].store.batches| == 1 && ms[i].store.property.status == Inserted
  {
    RunKeepsInv(ms, i);
    assert PropertyProcInv(ms[i].store, ms[i].procs[w]) && EventProcInv(ms[i].store, ms[i].procs[w]);
  }

  /** The property checkpoint says `processing` and nobody holds the claim any more. */
  ghost predicate Ambiguous(m: Machine) {
    m.store.property.status == Processing && forall w | w in m.procs :: !Holds(m.procs[w])
  }

  lemma AmbiguousHasNoSuccess(m: Machine)
    requires PropertyInv(m) && Ambiguous(m)
    ensures forall w | w in m.procs && m.procs[w].records != [] :: m.procs[w].pc != Returned(true)
  {
    assert forall w | w in m.procs :: PropertyProcInv(m.store, m.procs[w]);
  }

  lemma AmbiguousStatement(s: Store, p: Proc, reply: Reply)
    requires s.property.status == Processing && !Holds(p) && Possible(p, reply)
    ensures var t := StoreAfter(s, p, reply); t.property == s.property && t.batches == s.batches
    ensures !Holds(ProcAfter(s, p, reply))
  {
  }

  lemma AmbiguousSpawn(m: Machine, w: int, records: seq<Record>)
    requires Ambiguous(m) && w !in m.procs
    ensures Ambiguous(Spawn(m, w, records))
  {
    var m' := Spawn(m, w, records);
    assert forall v | v in m'.procs :: v == w || m'.procs[v] == m.procs[v];
  }

  lemma AmbiguousStep(m: Machine, w: int, reply: Reply)
    requires Ambiguous(m) && CanStep(m, w, reply)
    ensures Ambiguous(Step(m, w, reply)) && Step(m, w, reply).store.batches == m.store.batches
  {
    AmbiguousStatement(m.store, m.procs[w], reply);
  }

  lemma AmbiguousNext(m: Machine, m': Machine)
    requires Ambiguous(m) && Next(m, m')
    ensures Ambiguous(m') && m'.store.batches == m.store.batches
  {
    if w, records :| w !in m.procs && m' == Spawn(m, w, records) {
      AmbiguousSpawn(m, w, records);
    } else {
      var w, reply :| CanStep(m, w, reply) && m' == Step(m, w, reply);
      AmbiguousStep(m, w, reply);
    }
  }

  /** An ambiguous checkpoint stays ambiguous whatever is delivered later: nobody reclaims it,
      no further batch is appended, and no worker with properties succeeds. */
  lemma AmbiguousIsNeverRetried(m: Machine, m': Machine)
    requires Inv(m) && Ambiguous(m) && Next(m, m')
    ensures Ambiguous(m') && m'.store.batches == m.store.batches
    ensures forall w | w in m'.procs && m'.procs[w].records != [] :: m'.procs[w].pc != Returned(true)
  {
    AmbiguousNext(m, m');
    NextKeepsInv(m, m');
    AmbiguousHasNoSuccess(m');
  }

  /** Event rows under any interleaving: a committed status has a row, rows never exceed the
      attempt counter, and each row's commit took effect, was lost, or is pending. */
  lemma RowsConserved(ms: seq<Machine>, i: nat)
    requires Run(ms) && i < |ms|
    ensures var m := ms[i];
            && (m.store.event.status == Inserted ==> m.store.rows >= 1)
            && m.store.rows <= m.store.event.attempt
            && m.store.rows == m.store.commits + m.store.lost + |WorkersAt(m.procs, EvCommit)|
  {
    RunKeepsInv(ms, i);
  }

  // ------------------------------------------------------ serialized writers

  /** Deliveries of the key do not overlap: at most one worker is active. */
  ghost predicate Serialized(m: Machine) {
    forall v, w | v in m.procs && w in m.procs && Active(m.procs[v]) && Active(m.procs[w]) :: v == w
  }

  ghost predicate SerialProcInv(s: Store, p: Proc) {
    && (p.pc in {EvReclaim, EvAppend, EvCommit, EvRollback} ==> s.event.status != Inserted)
    && (PastEvent(p) ==> s.event.status == Inserted)
  }

  ghost predicate SerialCounts(m: Machine) {
    && m.store.commits == One(m.store.event.status == Inserted)
    && (forall w | w in m.procs :: SerialProcInv(m.store, m.procs[w]))
  }

  ghost predicate SerialInv(m: Machine) {
    Inv(m) && SerialCounts(m)
  }

  lemma SerialOwnStep(s: Store, p: Proc, reply: Reply)
    requires EventProcInv(s, p) && SerialProcInv(s, p) && Possible(p, reply)
    requires s.commits == One(s.event.status == Inserted)
    ensures var t := StoreAfter(s, p, reply);
            t.commits == One(t.event.status == Inserted) && SerialProcInv(t, ProcAfter(s, p, reply))
  {
  }

  lemma SerialSpawn(m: Machine, w: int, records: seq<Record>)
    requires SerialCounts(m) && w !in m.procs
    ensures SerialCounts(Spawn(m, w, records))
  {
    var m' := Spawn(m, w, records);
    assert forall v | v in m'.procs :: v == w || m'.procs[v] == m.procs[v];
  }

  lemma SerialStep(m: Machine, w: int, reply: Reply)
    requires EventInv(m) && SerialCounts(m) && Serialized(m) && CanStep(m, w, reply)
    ensures SerialCounts(Step(m, w, reply))
  {
    SerialOwnStep(m.store, m.procs[w], reply);
    assert forall v | v in m.procs && v != w :: !Active(m.procs[v]);
  }

  lemma SerialNext(m: Machine, m': Machine)
    requires EventInv(m) && SerialCounts(m) && Serialized(m) && Next(m, m')
    ensures SerialCounts(m')
  {
    if w, records :| w !in m.procs && m' == Spawn(m, w, records) {
      SerialSpawn(m, w, records);
    } else {
      var w, reply :| CanStep(m, w, reply) && m' == Step(m, w, reply);
      SerialStep(m, w, reply);
    }
  }

  lemma {:induction false} SerialRun(ms: seq<Machine>, i: nat)
    requires Run(ms) && i < |ms| && forall j | 0 <= j < i :: Serialized(ms[j])
    ensures SerialInv(ms[i])
  {
    if i == 0 {
      EmptyInv();
    } else {
      SerialRun(ms, i - 1);
      assert Next(ms[i - 1], ms[i - 1 + 1]);
      NextKeepsInv(ms[i - 1], ms[i]);
      SerialNext(ms[i - 1], ms[i]);
    }
  }

  /** For serialized deliveries, whenever nobody is writing: the rows are exactly the appends
      whose commit did not take effect, plus one if the status says inserted. */
  lemma SerializedRowsExact(ms: seq<Machine>, i: nat)
    requires Run(ms) && i < |ms| && forall j | 0 <= j <= i :: Serialized(ms[j])
    requires forall w | w in ms[i].procs :: !Active(ms[i].procs[w])
    ensures ms[i].store.rows == ms[i].store.lost + One(ms[i].store.event.status == Inserted)
  {
    SerialRun(ms, i);
    assert forall w | w in ms[i].procs :: !Active(ms[i].procs[w]) && ms[i].procs[w].pc != EvCommit;
    assert WorkersAt(ms[i].procs, EvCommit) == {};
  }

  /** For serialized deliveries a worker that returned without an error leaves the event checkpoint
      inserted, and the property checkpoint too if its envelope has properties. */
  lemma SerializedSuccessIsCommitted(ms: seq<Machine>, i: nat, w: int)
    requires Run(ms) && i < |ms| && forall j | 0 <= j < i :: Serialized(ms[j])
    requires w in ms[i].procs && ms[i].procs[w].pc == Returned(true)
    ensures ms[i].store.event.status == Inserted
    ensures ms[i].procs[w].records != [] ==> ms[i].store.property.status == Inserted
  {
    SerialRun(ms, i);
    assert SerialProcInv(ms[i].store, ms[i].procs[w]) && PropertyProcInv(ms[i].store, ms[i].procs[w]);
  }
}
