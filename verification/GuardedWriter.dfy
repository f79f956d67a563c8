/** The composed event writer as straight-line code over one key's checkpoints.

    Each method issues its statements in the order of the source and branches on what they
    report. A script supplies the replies, so an error, a lost reply or a crash can be placed
    at any statement. The contracts say that running the code to its end is running one
    worker of the key-level protocol without interference. */
module GuardedWriter {
  import opened Prelude
  import opened Events
  import opened KeyGuards

  /** The reply a statement really gets: an append that reports an error was not applied, and
      nothing is heard after the script ends. */
  function ReplyAt(script: seq<Reply>, i: nat, p: Proc): Reply {
    if i >= |script| then Death(false)
    else if Active(p) && !Possible(p, script[i]) then Failure(false)
    else script[i]
  }

  /** One worker running alone to its end. */
  function Alone(s: Store, p: Proc, script: seq<Reply>, i: nat): (Store, Proc)
    decreases |script| - i
  {
    if !Active(p) then (s, p)
    else
      var reply := ReplyAt(script, i, p);
      var t, q := StoreAfter(s, p, reply), ProcAfter(s, p, reply);
      if i >= |script| then (t, q) else Alone(t, q, script, i + 1)
  }

  /** The checkpoint after one more claim. */
  function Taken(c: Checkpoint): Checkpoint {
    Checkpoint(Processing, if c.status == Absent then 1 else c.attempt + 1)
  }

  /** The checkpoint after a claim that was committed. */
  function Committed(c: Checkpoint): Checkpoint {
    Taken(c).(status := Inserted)
  }

  /** A properties checkpoint in `processing` stops a call that has properties. */
  predicate Blocked(s: Store, records: seq<Record>) {
    records != [] && s.property.status == Processing
  }

  /** What a call leaves of the event: its row, once. */
  function RowWritten(s: Store): Store {
    if s.event.status == Inserted then s
    else s.(event := Committed(s.event), rows := s.rows + 1, commits := s.commits + 1)
  }

  /** What a successful call leaves behind: the row and, if there are properties, their batch, each once. */
  function Written(s: Store, records: seq<Record>): Store {
    var t := RowWritten(s);
    if records == [] || s.property.status == Inserted then t
    else t.(property := Committed(s.property), batches := s.batches + [records])
  }

  /** What a claim call reports: the two live outcomes, an error, or nothing because the
      process died in it. */
  datatype Claim = Claimed | AlreadyInserted | Refused | Gone

  datatype Outcome = Success | Error | Dead

  class Database {
    var store: Store
    const script: seq<Reply>
    var next: nat

    constructor (store: Store, script: seq<Reply>)
      ensures this.store == store && this.script == script && this.next == 0
    {
      this.store, this.script, this.next := store, script, 0;
    }

    /** From here on the code behaves like worker `p`. */
    ghost function Rest(p: Proc): (Store, Proc)
      reads this
    {
      Alone(store, p, script, next)
    }

    /** The statements issued from `lo` up to `hi` all replied. */
    ghost predicate Replies(lo: nat, hi: nat) {
      hi <= |script| && forall n | lo <= n < hi :: script[n] == Replied
    }

    /** Issue one statement; `saw` is the store the statement acted on. */
    method Issue(records: seq<Record>, pc: Pc) returns (saw: Store, reply: Reply)
      requires Active(Proc(records, pc))
      modifies this
      ensures saw == old(store) && store == StoreAfter(saw, Proc(records, pc), reply)
      ensures Possible(Proc(records, pc), reply) && next == old(next) + 1
      ensures reply.Replied? <==> Replies(old(next), next)
      ensures old(Rest(Proc(records, pc))) == Rest(ProcAfter(saw, Proc(records, pc), reply))
    {
      saw := store;
      reply := ReplyAt(script, next, Proc(records, pc));
      store := StoreAfter(saw, Proc(records, pc), reply);
      next := next + 1;
    }

    /** Insert-if-absent; on a conflict read the row, skip it if inserted, reclaim it otherwise. */
    method StartEventWrite(records: seq<Record>) returns (claim: Claim)
      modifies this
      ensures old(Rest(Proc(records, EvInsert))) == Rest(Proc(records,
                match claim
                case Claimed => EvAppend
                case AlreadyInserted => AfterEvent(Proc(records, EvRead))
                case Refused => Returned(false)
                case Gone => Crashed))
      ensures next >= old(next) && (Replies(old(next), next) <==> claim.Claimed? || claim.AlreadyInserted?)
      ensures claim.Claimed? ==> old(store).event.status != Inserted && store == old(store).(event := Taken(old(store).event))
      ensures claim.AlreadyInserted? ==> old(store).event.status == Inserted && store == old(store)
      ensures store == old(store).(event := store.event)
    {
      var saw, reply := Issue(records, EvInsert);
      if !reply.Replied? { return if reply.Failure? then Refused else Gone; }
      if saw.event.status == Absent { return Claimed; }
      saw, reply := Issue(records, EvRead);
      if !reply.Replied? { return if reply.Failure? then Refused else Gone; }
      if saw.event.status == Absent { return Refused; }
      if saw.event.status == Inserted { return AlreadyInserted; }
      saw, reply := Issue(records, EvReclaim);
      if !reply.Replied? { return if reply.Failure? then Refused else Gone; }
      return Claimed;
    }

    /** Claim, append, then commit; an append error rolls the claim back, a commit error does not. */
    method WriteEventRow(records: seq<Record>) returns (outcome: Outcome)
      modifies this
      ensures old(Rest(Proc(records, EvInsert))) == Rest(Proc(records,
                match outcome
                case Success => AfterEvent(Proc(records, EvRead))
                case Error => Returned(false)
                case Dead => Crashed))
      ensures next >= old(next) && (outcome.Success? <==> Replies(old(next), next))
      ensures outcome.Success? ==> store == RowWritten(old(store))
      ensures store.property == old(store).property && store.batches == old(store).batches
      ensures old(store).rows <= store.rows <= old(store).rows + 1
    {
      var claim := StartEventWrite(records);
      match claim {
        case Refused => return Error;
        case Gone => return Dead;
        case AlreadyInserted => return Success;
        case Claimed =>
      }
      var saw, reply := Issue(records, EvAppend);
      if reply.Death? { return Dead; }
      if reply.Failure? {
        saw, reply := Issue(records, EvRollback);
        return if reply.Death? then Dead else Error;
      }
      saw, reply := Issue(records, EvCommit);
      return if reply.Replied? then Success else if reply.Failure? then Error else Dead;
    }

    /** Insert-if-absent; on a conflict only an explicitly failed row is reclaimed, by
        compare-and-set. */
    method StartPropertyWrite(records: seq<Record>) returns (claim: Claim)
      modifies this
      ensures old(Rest(Proc(records, PrInsert))) == Rest(Proc(records,
                match claim
                case Claimed => PrAppend
                case AlreadyInserted => CatUpsert
                case Refused => Returned(false)
                case Gone => Crashed))
      ensures next >= old(next) && (claim.Claimed? || claim.AlreadyInserted? ==> Replies(old(next), next))
      ensures Replies(old(next), next) ==>
                claim == match old(store).property.status
                         case Processing => Refused
                         case Inserted => AlreadyInserted
                         case _ => Claimed
      ensures claim.Claimed? ==> old(store).property.status in {Absent, Failed} && store == old(store).(property := Taken(old(store).property))
      ensures claim.AlreadyInserted? ==> old(store).property.status == Inserted && store == old(store)
      ensures store == old(store).(property := store.property)
    {
      var saw, reply := Issue(records, PrInsert);
      if !reply.Replied? { return if reply.Failure? then Refused else Gone; }
      if saw.property.status == Absent { return Claimed; }
      saw, reply := Issue(records, PrRead);
      if !reply.Replied? { return if reply.Failure? then Refused else Gone; }
      if saw.property.status == Inserted { return AlreadyInserted; }
      if saw.property.status != Failed { return Refused; }
      saw, reply := Issue(records, PrReclaim);
      if !reply.Replied? { return if reply.Failure? then Refused else Gone; }
      if saw.property.status != Failed { return Refused; }
      return Claimed;
    }

    /** Append the batch of a claimed checkpoint and commit it; an append error rolls the claim back, a
        commit error does not. */
    method WriteClaimedProperties(records: seq<Record>) returns (outcome: Outcome)
      requires store.property.status == Processing
      modifies this
      ensures old(Rest(Proc(records, PrAppend))) == Rest(Proc(records,
                match outcome
                case Success => CatUpsert
                case Error => Returned(false)
                case Dead => Crashed))
      ensures next >= old(next) && (outcome.Success? <==> Replies(old(next), next))
      ensures outcome.Success? ==>
                store == old(store).(property := Checkpoint(Inserted, old(store).property.attempt), batches := old(store).batches + [records])
      ensures store == old(store).(property := store.property, batches := store.batches)
      ensures store.batches == old(store).batches || store.batches == old(store).batches + [records]
    {
      var saw, reply := Issue(records, PrAppend);
      if reply.Death? { return Dead; }
      if reply.Failure? {
        saw, reply := Issue(records, PrRollback);
        return if reply.Death? then Dead else Error;
      }
      saw, reply := Issue(records, PrCommit);
      return if reply.Replied? then Success else if reply.Failure? then Error else Dead;
    }

    /** The event row first; then, if there are properties, their own claim, batch and commit. */
    method WriteIndexedEvent(records: seq<Record>) returns (outcome: Outcome)
      modifies this
      ensures old(Rest(Proc(records, EvInsert))) == Rest(Proc(records,
                match outcome
                case Success => if records == [] then Returned(true) else CatUpsert
                case Error => Returned(false)
                case Dead => Crashed))
      ensures next >= old(next) && (outcome.Success? ==> Replies(old(next), next))
      ensures Replies(old(next), next) ==> outcome == if Blocked(old(store), records) then Error else Success
      ensures outcome.Success? ==> store == Written(old(store), records)
      ensures old(store).rows <= store.rows <= old(store).rows + 1
      ensures store.batches == old(store).batches || store.batches == old(store).batches + [records]
    {
      outcome := WriteEventRow(records);
      if !outcome.Success? || |records| == 0 {
        return outcome;
      }
      var claim := StartPropertyWrite(records);
      match claim {
        case Refused => return Error;
        case Gone => return Dead;
        case AlreadyInserted => return Success;
        case Claimed =>
      }
      outcome := WriteClaimedProperties(records);
    }

    /** The outermost decorator: the indexed write, then the catalog upsert. The whole call is
        one uninterrupted worker of the protocol, and it reports success exactly when that
        worker does. */
    method WriteEvent(records: seq<Record>) returns (outcome: Outcome)
      modifies this
      ensures old(Rest(Proc(records, EvInsert))) == (store, Proc(records,
                match outcome
                case Success => Returned(true)
                case Error => Returned(false)
                case Dead => Crashed))
      ensures outcome.Success? <==> Replies(old(next), next) && !Blocked(old(store), records)
      ensures Blocked(old(store), records) && Replies(old(next), next) ==> outcome == Error
      ensures outcome.Success? ==> store == Written(old(store), records)
      ensures outcome.Success? ==> store.event.status == Inserted && (records != [] ==> store.property.status == Inserted)
      ensures old(store).rows <= store.rows <= old(store).rows + 1
      ensures store.batches == old(store).batches || store.batches == old(store).batches + [records]
    {
      outcome := WriteIndexedEvent(records);
      if !outcome.Success? || |records| == 0 {
        return outcome;
      }
      var saw, reply := Issue(records, CatUpsert);
      return if reply.Replied? then Success else if reply.Failure? then Error else Dead;
    }
  }

  /** A delivery that runs alone is a run of the key-level machine by one fresh worker. */
  lemma {:induction false} AloneIsMachineRun(m: Machine, w: int, script: seq<Reply>, i: nat) returns (m': Machine)
    requires Inv(m) && w in m.procs
    ensures Inv(m')
    ensures m'.procs.Keys == m.procs.Keys
    ensures forall v | v in m.procs && v != w :: m'.procs[v] == m.procs[v]
    ensures (m'.store, m'.procs[w]) == Alone(m.store, m.procs[w], script, i)
    ensures !Active(m'.procs[w])
    decreases |script| - i
  {
    var p := m.procs[w];
    m' := m;
    if Active(p) {
      var reply := ReplyAt(script, i, p);
      StepKeepsPropertyInv(m, w, reply);
      StepKeepsEventInv(m, w, reply);
      m' := Step(m, w, reply);
      if i < |script| {
        m' := AloneIsMachineRun(m', w, script, i + 1);
      }
    }
  }

  // ------------------------------------------------------------------ errors

  lemma {:induction false} RollbackFails(s: Store, p: Proc, script: seq<Reply>, i: nat)
    requires p.pc == EvRollback || p.pc == PrRollback
    ensures Alone(s, p, script, i).1.pc != Returned(true)
  {
    var reply := ReplyAt(script, i, p);
    var t, q := StoreAfter(s, p, reply), ProcAfter(s, p, reply);
    assert !Active(q) && Alone(t, q, script, i + 1) == (t, q);
  }

  /** Whatever statement reports an error or loses its worker, the call does not succeed. */
  lemma {:induction false} AnyErrorFails(s: Store, p: Proc, script: seq<Reply>, i: nat)
    requires Active(p) && !ReplyAt(script, i, p).Replied?
    ensures Alone(s, p, script, i).1.pc != Returned(true)
  {
    var reply := ReplyAt(script, i, p);
    var t, q := StoreAfter(s, p, reply), ProcAfter(s, p, reply);
    if i < |script| && Active(q) {
      assert q.pc == EvRollback || q.pc == PrRollback;
      RollbackFails(t, q, script, i + 1);
    }
  }

  /** A claimed append that fails is rolled back: nothing was added, the checkpoint says failed, and
      the call reports an error. */
  lemma {:induction false} FailedAppendRollsBack(s: Store, records: seq<Record>, script: seq<Reply>, i: nat)
    requires i + 1 < |script| && script[i].Failure? && script[i + 1] == Replied
    ensures s.event.status != Absent ==>
              Alone(s, Proc(records, EvAppend), script, i) == (s.(event := Checkpoint(Failed, s.event.attempt)), Proc(records, Returned(false)))
    ensures s.property.status != Absent ==>
              Alone(s, Proc(records, PrAppend), script, i) == (s.(property := Checkpoint(Failed, s.property.attempt)), Proc(records, Returned(false)))
  {
    if s.event.status != Absent {
      RollbackAfter(s, Proc(records, EvAppend), script, i);
    }
    if s.property.status != Absent {
      RollbackAfter(s, Proc(records, PrAppend), script, i);
    }
  }

  lemma {:induction false} RollbackAfter(s: Store, p: Proc, script: seq<Reply>, i: nat)
    requires p.pc in {EvAppend, PrAppend} && i + 1 < |script| && script[i].Failure? && script[i + 1] == Replied
    ensures var q := p.(pc := if p.pc == EvAppend then EvRollback else PrRollback);
            Alone(s, p, script, i) == (Effect(s, q), p.(pc := Returned(false)))
  {
    var q := p.(pc := if p.pc == EvAppend then EvRollback else PrRollback);
    assert Alone(s, p, script, i) == Alone(s, q, script, i + 1);
    assert Alone(s, q, script, i + 1) == Alone(Effect(s, q), q.(pc := Returned(false)), script, i + 2);
  }

  /** A commit that reports an error fails the call and is not rolled back, whether it took effect or
      not: the row or batch stays, and the checkpoint keeps saying processing if it did not. */
  lemma {:induction false} FailedCommitIsKept(s: Store, records: seq<Record>, script: seq<Reply>, i: nat)
    requires i < |script| && script[i].Failure?
    requires s.event.status == Processing && s.property.status == Processing
    ensures var (t, p) := Alone(s, Proc(records, EvCommit), script, i);
            p.pc == Returned(false) && t.rows == s.rows && t.event == Checkpoint(if script[i].applied then Inserted else Processing, s.event.attempt)
    ensures var (t, p) := Alone(s, Proc(records, PrCommit), script, i);
            p.pc == Returned(false) && t.batches == s.batches
            && t.property == Checkpoint(if script[i].applied then Inserted else Processing, s.property.attempt)
  {
  }

  // ---------------------------------------------------------- redeliveries

  ghost predicate AllReply(script: seq<Reply>, i: nat, n: nat) {
    i + n <= |script| && forall j | i <= j < i + n :: script[j] == Replied
  }

  lemma OneReply(s: Store, p: Proc, script: seq<Reply>, i: nat)
    requires Active(p) && i < |script| && script[i] == Replied
    ensures Alone(s, p, script, i) == Alone(Effect(s, p), p.(pc := OnReply(s, p)), script, i + 1)
  {
  }

  /** The event stage of a redelivery finds the committed row and writes nothing. */
  lemma {:induction false} CommittedEventIsSkipped(s: Store, records: seq<Record>, script: seq<Reply>, i: nat)
    requires s.event.status == Inserted && AllReply(script, i, 2)
    ensures Alone(s, Proc(records, EvInsert), script, i) == Alone(s, Proc(records, AfterEvent(Proc(records, EvRead))), script, i + 2)
  {
    OneReply(s, Proc(records, EvInsert), script, i);
    OneReply(s, Proc(records, EvRead), script, i + 1);
  }

  lemma {:induction false} FailedCheckpointIsRead(s: Store, records: seq<Record>, script: seq<Reply>, i: nat)
    requires s.property.status == Failed && AllReply(script, i, 2)
    ensures Alone(s, Proc(records, PrInsert), script, i) == Alone(s, Proc(records, PrReclaim), script, i + 2)
  {
    OneReply(s, Proc(records, PrInsert), script, i);
    OneReply(s, Proc(records, PrRead), script, i + 1);
  }

  /** The property stage of a redelivery takes over a failed checkpoint. */
  lemma {:induction false} FailedCheckpointIsClaimed(s: Store, records: seq<Record>, script: seq<Reply>, i: nat)
    requires s.property.status == Failed && AllReply(script, i, 3)
    ensures Alone(s, Proc(records, PrInsert), script, i) ==
              Alone(s.(property := Checkpoint(Processing, s.property.attempt + 1)), Proc(records, PrAppend), script, i + 3)
  {
    FailedCheckpointIsRead(s, records, script, i);
    OneReply(s, Proc(records, PrReclaim), script, i + 2);
  }

  /** A claim holder whose statements all reply appends one batch and commits it. */
  lemma {:induction false} ClaimedBatchIsCommitted(s: Store, records: seq<Record>, script: seq<Reply>, i: nat)
    requires s.property.status == Processing && s.batches == [] && AllReply(script, i, 3)
    ensures var (t, p) := Alone(s, Proc(records, PrAppend), script, i);
            && p.pc == Returned(true) && t.rows == s.rows && t.event == s.event
            && t.batches == [records] && t.property == Checkpoint(Inserted, s.property.attempt)
  {
    OneReply(s, Proc(records, PrAppend), script, i);
    var appended := Effect(s, Proc(records, PrAppend));
    OneReply(appended, Proc(records, PrCommit), script, i + 1);
    OneReply(Effect(appended, Proc(records, PrCommit)), Proc(records, CatUpsert), script, i + 2);
  }

  lemma {:induction false} FailedBatchIsRepaired(s: Store, records: seq<Record>, script: seq<Reply>, i: nat)
    requires s.property.status == Failed && s.batches == [] && AllReply(script, i, 6)
    ensures var (t, p) := Alone(s, Proc(records, PrInsert), script, i);
            && p.pc == Returned(true) && t.rows == s.rows && t.event == s.event
            && t.batches == [records] && t.property == Checkpoint(Inserted, s.property.attempt + 1)
  {
    FailedCheckpointIsClaimed(s, records, script, i);
    ClaimedBatchIsCommitted(s.(property := Checkpoint(Processing, s.property.attempt + 1)), records, script, i + 3);
  }

  /** A redelivery repairs an event whose property batch had failed: it adds the one missing
      batch and commits it, and no second event row. */
  lemma {:induction false} RedeliveryRepairsProperties(s: Store, records: seq<Record>, script: seq<Reply>)
    requires s.event.status == Inserted && s.property.status == Failed && s.batches == []
    requires records != [] && AllReply(script, 0, 8)
    ensures var (t, p) := Alone(s, Proc(records, EvInsert), script, 0);
            && p.pc == Returned(true) && t.rows == s.rows && t.event == s.event
            && t.batches == [records] && t.property == Checkpoint(Inserted, s.property.attempt + 1)
  {
    CommittedEventIsSkipped(s, records, script, 0);
    FailedBatchIsRepaired(s, records, script, 2);
  }

  /** A redelivery of a completely written event succeeds and changes neither checkpoint,
      rows nor batches. */
  lemma {:induction false} RedeliveryOfWrittenEventIsNoOp(s: Store, records: seq<Record>, script: seq<Reply>)
    requires s.event.status == Inserted && (records != [] ==> s.property.status == Inserted)
    requires AllReply(script, 0, 5)
    ensures Alone(s, Proc(records, EvInsert), script, 0) == (s, Proc(records, Returned(true)))
  {
    CommittedEventIsSkipped(s, records, script, 0);
    if records != [] {
      OneReply(s, Proc(records, PrInsert), script, 2);
      OneReply(s, Proc(records, PrRead), script, 3);
      OneReply(s, Proc(records, CatUpsert), script, 4);
    }
  }
}
