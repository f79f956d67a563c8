/** What can still happen to a key: continuations of the write protocol from any of its states. */
module KeyRuns {
  import opened Prelude
  import opened Events
  import opened KeyGuards

  function Final(ms: seq<Machine>): Machine
    requires ms != []
  {
    ms[|ms| - 1]
  }

  lemma Extend(ms: seq<Machine>, m: Machine, next: Machine) returns (longer: seq<Machine>)
    requires Continues(ms, m) && Next(Final(ms), next)
    ensures Continues(longer, m) && longer == ms + [next]
  {
    longer := ms + [next];
    forall i | 0 <= i < |longer| - 1 ensures Next(longer[i], longer[i + 1]) {
      if i < |ms| - 1 {
        assert Next(ms[i], ms[i + 1]);
      }
    }
  }

  lemma ThenSpawn(ms: seq<Machine>, m: Machine, w: int, records: seq<Record>) returns (longer: seq<Machine>)
    requires Continues(ms, m) && w !in Final(ms).procs
    ensures Continues(longer, m) && longer == ms + [Spawn(Final(ms), w, records)]
  {
    longer := Extend(ms, m, Spawn(Final(ms), w, records));
  }

  lemma ThenStep(ms: seq<Machine>, m: Machine, w: int, reply: Reply) returns (longer: seq<Machine>)
    requires Continues(ms, m) && CanStep(Final(ms), w, reply)
    ensures Continues(longer, m) && longer == ms + [Step(Final(ms), w, reply)]
  {
    longer := Extend(ms, m, Step(Final(ms), w, reply));
  }

  /** Two workers that have claimed the same event row one after the other. */
  lemma BothClaim() returns (ms: seq<Machine>)
    ensures Run(ms)
    ensures Final(ms).store == EMPTY_STORE.(event := Checkpoint(Processing, 2))
    ensures Final(ms).procs == map[1 := Proc([], EvAppend), 2 := Proc([], EvAppend)]
  {
    ms := ThenSpawn([EMPTY_MACHINE], EMPTY_MACHINE, 1, []);
    ms := ThenSpawn(ms, EMPTY_MACHINE, 2, []);
    ms := ThenStep(ms, EMPTY_MACHINE, 1, Replied);       // 1 claims
    ms := ThenStep(ms, EMPTY_MACHINE, 2, Replied);       // 2 finds the row,
    ms := ThenStep(ms, EMPTY_MACHINE, 2, Replied);       // reads `processing`
    ms := ThenStep(ms, EMPTY_MACHINE, 2, Replied);       // and reclaims it
  }

  /** Overlapping deliveries can append the row twice although every statement succeeds and
      every commit takes effect: the second delivery reclaims the first one's claim. */
  lemma OverlappingDeliveriesDuplicate() returns (ms: seq<Machine>)
    ensures Run(ms)
    ensures var m := Final(ms);
            && m.store.rows == 2 && m.store.lost == 0 && m.store.event.status == Inserted
            && m.procs.Keys == {1, 2} && forall w | w in m.procs :: m.procs[w].pc == Returned(true)
  {
    ms := BothClaim();
    ms := ThenStep(ms, EMPTY_MACHINE, 1, Replied);
    ms := ThenStep(ms, EMPTY_MACHINE, 2, Replied);       // both append
    ms := ThenStep(ms, EMPTY_MACHINE, 1, Replied);
    ms := ThenStep(ms, EMPTY_MACHINE, 2, Replied);       // both commit
  }

  /** Deliveries of a run never overlap. */
  ghost predicate NeverOverlaps(ms: seq<Machine>) {
    forall i | 0 <= i < |ms| :: Serialized(ms[i])
  }

  lemma ThenAlone(ms: seq<Machine>, w: int, reply: Reply) returns (longer: seq<Machine>)
    requires Run(ms) && NeverOverlaps(ms) && CanStep(Final(ms), w, reply)
    ensures Run(longer) && NeverOverlaps(longer) && Final(longer) == Step(Final(ms), w, reply)
  {
    longer := ThenStep(ms, EMPTY_MACHINE, w, reply);
  }

  lemma RowCommitted(records: seq<Record>) returns (ms: seq<Machine>)
    requires records != []
    ensures Run(ms) && NeverOverlaps(ms)
    ensures Final(ms) == Machine(Store(Checkpoint(Inserted, 1), 1, 1, 0, Checkpoint(Absent, 0), []), map[1 := Proc(records, PrInsert)])
  {
    ms := ThenSpawn([EMPTY_MACHINE], EMPTY_MACHINE, 1, records);
    ms := ThenAlone(ms, 1, Replied);                     // claims,
    ms := ThenAlone(ms, 1, Replied);                     // appends the row
    ms := ThenAlone(ms, 1, Replied);                     // and commits it
  }

  /** A delivery whose property append fails: its row is committed and the claim rolled back. */
  lemma PropertiesFail(records: seq<Record>) returns (ms: seq<Machine>)
    requires records != []
    ensures Run(ms) && NeverOverlaps(ms)
    ensures Final(ms) == Machine(Store(Checkpoint(Inserted, 1), 1, 1, 0, Checkpoint(Failed, 1), []), map[1 := Proc(records, Returned(false))])
  {
    ms := RowCommitted(records);
    ms := ThenAlone(ms, 1, Replied);                     // claims the properties,
    ms := ThenAlone(ms, 1, Failure(false));              // cannot append them
    ms := ThenAlone(ms, 1, Replied);                     // and rolls back
  }

  lemma OtherFindsRow(records: seq<Record>, others: seq<Record>) returns (ms: seq<Machine>)
    requires records != [] && others != []
    ensures Run(ms) && NeverOverlaps(ms)
    ensures Final(ms) == Machine(Store(Checkpoint(Inserted, 1), 1, 1, 0, Checkpoint(Failed, 1), []),
                                 map[1 := Proc(records, Returned(false)), 2 := Proc(others, PrInsert)])
  {
    ms := PropertiesFail(records);
    ms := ThenSpawn(ms, EMPTY_MACHINE, 2, others);
    ms := ThenAlone(ms, 2, Replied);
    ms := ThenAlone(ms, 2, Replied);                     // reads `inserted`
  }

  lemma OtherReclaims(records: seq<Record>, others: seq<Record>) returns (ms: seq<Machine>)
    requires records != [] && others != []
    ensures Run(ms) && NeverOverlaps(ms)
    ensures Final(ms) == Machine(Store(Checkpoint(Inserted, 1), 1, 1, 0, Checkpoint(Processing, 2), []),
                                 map[1 := Proc(records, Returned(false)), 2 := Proc(others, PrAppend)])
  {
    ms := OtherFindsRow(records, others);
    ms := ThenAlone(ms, 2, Replied);
    ms := ThenAlone(ms, 2, Replied);                     // reads `failed`
    ms := ThenAlone(ms, 2, Replied);                     // and reclaims
  }

  /** Under a reused key even deliveries that never overlap can leave the row of one envelope beside
      the properties of another: the first fails in its property append, the second repairs it. */
  lemma RepairByOtherEnvelope(records: seq<Record>, others: seq<Record>) returns (ms: seq<Machine>)
    requires records != [] && others != []
    ensures Run(ms) && NeverOverlaps(ms)
    ensures Final(ms).store.rows == 1 && Final(ms).store.batches == [others]
    ensures Final(ms).procs == map[1 := Proc(records, Returned(false)), 2 := Proc(others, Returned(true))]
  {
    ms := OtherReclaims(records, others);
    ms := ThenAlone(ms, 2, Replied);
    ms := ThenAlone(ms, 2, Replied);
    ms := ThenAlone(ms, 2, Replied);
  }

  // --------------------------------------------- when no row is added any more

  /** The row is committed and nobody is about to claim it again, append, or roll back. */
  ghost predicate Closed(m: Machine) {
    m.store.event.status == Inserted && forall w | w in m.procs :: m.procs[w].pc !in {EvReclaim, EvAppend, EvRollback}
  }

  lemma ClosedStays(m: Machine, m': Machine)
    requires Closed(m) && Next(m, m')
    ensures Closed(m') && m'.store.rows == m.store.rows
  {
    if w, records :| w !in m.procs && m' == Spawn(m, w, records) {
      assert forall v | v in m'.procs :: v == w || m'.procs[v] == m.procs[v];
    } else {
      var w, reply :| CanStep(m, w, reply) && m' == Step(m, w, reply);
      assert m.procs[w].pc !in {EvReclaim, EvAppend, EvRollback};
    }
  }

  lemma {:induction false} ClosedForever(ms: seq<Machine>, m: Machine, n: nat)
    requires Continues(ms, m) && Closed(m) && n < |ms|
    ensures Closed(ms[n]) && ms[n].store.rows == m.store.rows
  {
    if n > 0 {
      ClosedForever(ms, m, n - 1);
      assert Next(ms[n - 1], ms[n - 1 + 1]);
      ClosedStays(ms[n - 1], ms[n]);
    }
  }

  lemma FreshWorker(procs: map<int, Proc>) returns (w: int)
    ensures w !in procs
  {
    w := AboveAll(procs.Keys);
  }

  /** While the checkpoint does not say inserted, one more delivery can reach its append. */
  lemma DeliveryReachesAppend(ms: seq<Machine>, m: Machine) returns (longer: seq<Machine>, w: int)
    requires Continues(ms, m) && Final(ms).store.event.status != Inserted
    ensures Continues(longer, m) && w in Final(longer).procs && Final(longer).procs[w].pc == EvAppend
    ensures Final(longer).store.rows == Final(ms).store.rows && Final(longer).store.event.status == Processing
  {
    w := FreshWorker(Final(ms).procs);
    longer := ThenSpawn(ms, m, w, []);
    longer := ThenStep(longer, m, w, Replied);
    if Final(ms).store.event.status != Absent {
      longer := ThenStep(longer, m, w, Replied);
      longer := ThenStep(longer, m, w, Replied);
    }
  }

  /** Such a delivery adds a row; if it dies in the append, the checkpoint stays open. */
  lemma OpenCheckpointAddsRow(ms: seq<Machine>, m: Machine) returns (longer: seq<Machine>)
    requires Continues(ms, m) && Final(ms).store.event.status != Inserted
    ensures Continues(longer, m) && Final(longer).store.rows == Final(ms).store.rows + 1
    ensures Final(longer).store.event.status != Inserted
  {
    var w: int;
    longer, w := DeliveryReachesAppend(ms, m);
    longer := ThenStep(longer, m, w, Death(true));
  }

  /** Whatever keeps the key from being closed lets another row in. */
  lemma AnotherRow(m: Machine) returns (ms: seq<Machine>)
    requires !Closed(m)
    ensures Continues(ms, m) && Final(ms).store.rows == m.store.rows + 1
  {
    ms := [m];
    if m.store.event.status != Inserted {
      ms := OpenCheckpointAddsRow(ms, m);
    } else {
      var w :| w in m.procs && m.procs[w].pc in {EvReclaim, EvAppend, EvRollback};
      if m.procs[w].pc == EvRollback {
        ms := ThenStep(ms, m, w, Replied);
        ms := OpenCheckpointAddsRow(ms, m);
      } else {
        if m.procs[w].pc == EvReclaim {
          ms := ThenStep(ms, m, w, Replied);
        }
        ms := ThenStep(ms, m, w, Replied);
      }
    }
  }

  /** From any state, no continuation adds an event row if and only if the checkpoint says
      inserted and no worker is about to reclaim, append or roll back. */
  lemma NoMoreRowsIffClosed(m: Machine)
    ensures (forall ms | Continues(ms, m) :: Final(ms).store.rows == m.store.rows) <==> Closed(m)
  {
    if Closed(m) {
      forall ms | Continues(ms, m) ensures Final(ms).store.rows == m.store.rows {
        ClosedForever(ms, m, |ms| - 1);
      }
    } else {
      var ms := AnotherRow(m);
      assert Final(ms).store.rows != m.store.rows;
    }
  }

  /** From any reachable state, the key never has more than one event row if and only if it has
      no more than one now and is closed. */
  lemma AtMostOneRowIffClosed(m: Machine)
    requires Inv(m)
    ensures (forall ms | Continues(ms, m) :: Final(ms).store.rows <= 1) <==> m.store.rows <= 1 && Closed(m)
  {
    assert Continues([m], m) && Final([m]) == m;
    if Closed(m) {
      forall ms | Continues(ms, m) ensures Final(ms).store.rows == m.store.rows {
        ClosedForever(ms, m, |ms| - 1);
      }
    } else if m.store.rows == 0 {
      var ms := OpenCheckpointAddsRow([m], m);
      ms := OpenCheckpointAddsRow(ms, m);
      assert Final(ms).store.rows == 2;
    } else {
      var ms := AnotherRow(m);
      assert Final(ms).store.rows > 1;
    }
  }

  /** In any run, a key that has been closed with `k` rows keeps `k` rows to the end of the run. */
  lemma ClosedRunKeepsRows(ms: seq<Machine>, i: nat, j: nat)
    requires Run(ms) && i <= j < |ms| && Closed(ms[i])
    ensures ms[j].store.rows == ms[i].store.rows
  {
    var rest := ms[i..];
    forall k | 0 <= k < |rest| - 1 ensures Next(rest[k], rest[k + 1]) {
      assert Next(ms[i + k], ms[i + k + 1]);
    }
    ClosedForever(rest, ms[i], j - i);
  }

  /** In every continuation an ambiguous checkpoint stays ambiguous: no batch is added, and no
      worker with properties ever returns without an error. */
  lemma {:induction false} AmbiguousForever(ms: seq<Machine>, m: Machine, n: nat)
    requires Continues(ms, m) && Inv(m) && Ambiguous(m) && n < |ms|
    ensures Inv(ms[n]) && Ambiguous(ms[n]) && ms[n].store.batches == m.store.batches
    ensures forall w | w in ms[n].procs && ms[n].procs[w].records != [] :: ms[n].procs[w].pc != Returned(true)
  {
    if n > 0 {
      AmbiguousForever(ms, m, n - 1);
      assert Next(ms[n - 1], ms[n - 1 + 1]);
      NextKeepsInv(ms[n - 1], ms[n]);
      AmbiguousIsNeverRetried(ms[n - 1], ms[n]);
    } else {
      AmbiguousHasNoSuccess(m);
    }
  }
}
