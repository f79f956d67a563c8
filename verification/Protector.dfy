/** Pausing and resuming fetches under local pressure. */
module Protector {
  import opened Prelude
  import opened CommitKeys

  const HARD_PENDING := 10000
  const HARD_GATE := 10000
  const HARD_QUEUE_RATIO := 0.95

  datatype CommitPressure = CommitPressure(key: string, pending: nat)

  datatype Snapshot = Snapshot(commits: seq<CommitPressure>, inFlight: int, waiting: int, queueRatio: real)

  type Partitions = map<string, seq<int>>

  predicate Lists(ps: Partitions, topic: string, partition: int) {
    topic in ps && partition in ps[topic]
  }

  predicate NoneEmpty(ps: Partitions) {
    forall t | t in ps :: ps[t] != []
  }

  predicate Overloaded(s: Snapshot) {
    || s.inFlight >= HARD_GATE || s.waiting >= HARD_GATE || s.queueRatio >= HARD_QUEUE_RATIO
    || exists i | 0 <= i < |s.commits| :: s.commits[i].pending >= HARD_PENDING
  }

  method HasHardPressure(s: Snapshot) returns (pressure: bool)
    ensures pressure <==> Overloaded(s)
    ensures pressure <==> s.inFlight >= 10000 || s.waiting >= 10000 || s.queueRatio >= 0.95
                          || exists i | 0 <= i < |s.commits| :: s.commits[i].pending >= 10000
  {
    if s.inFlight >= HARD_GATE || s.waiting >= HARD_GATE {
      return true;
    }
    if s.queueRatio >= HARD_QUEUE_RATIO {
      return true;
    }
    for i := 0 to |s.commits|
      invariant forall j | 0 <= j < i :: s.commits[j].pending < HARD_PENDING
    {
      if s.commits[i].pending >= HARD_PENDING {
        return true;
      }
    }
    return false;
  }

  function Add(ps: Partitions, topic: string, partition: int): Partitions {
    ps[topic := (if topic in ps then ps[topic] else []) + [partition]]
  }

  lemma AddLists(ps: Partitions, topic: string, partition: int)
    ensures NoneEmpty(ps) ==> NoneEmpty(Add(ps, topic, partition))
    ensures forall t, p :: Lists(Add(ps, topic, partition), t, p) <==> Lists(ps, t, p) || (t == topic && p == partition)
  {
  }

  /** The partitions listed are exactly those denoted by the tracked keys. */
  method PausedPartitions(s: Snapshot) returns (ps: Partitions)
    ensures NoneEmpty(ps)
    ensures forall t, p :: Lists(ps, t, p) <==> exists i | 0 <= i < |s.commits| :: Denotes(s.commits[i].key, t, p)
  {
    ps := map[];
    for i := 0 to |s.commits|
      invariant NoneEmpty(ps)
      invariant forall t, p :: Lists(ps, t, p) <==> exists j | 0 <= j < i :: Denotes(s.commits[j].key, t, p)
    {
      var topic, partition, ok := SplitCommitKey(s.commits[i].key);
      if ok {
        DenotesOnce(s.commits[i].key, topic, partition);
        AddLists(ps, topic, partition);
        ps := Add(ps, topic, partition);
      }
    }
  }

  lemma DenotesOnce(key: string, topic: string, partition: int)
    requires Denotes(key, topic, partition)
    ensures forall t, p :: Denotes(key, t, p) <==> t == topic && p == partition
  {
    forall i, j | LastColon(key, i) && LastColon(key, j) ensures i == j {
    }
  }

  /** For keys of the committer registry these are the registered topic-partitions themselves. */
  lemma RegistryKeysDenoteThemselves(topic: string, partition: int)
    requires topic != "" && 0 <= partition < TWO_31
    ensures forall t, p :: Denotes(CommitKey(topic, partition), t, p) <==> t == topic && p == partition
  {
    forall t, p ensures Denotes(CommitKey(topic, partition), t, p) <==> t == topic && p == partition {
      SplitInvertsKey(topic, partition, t, p);
    }
  }

  class ConsumptionProtector {
    var paused: Partitions
    var pauses: nat
    var resumes: nat
    /** The partitions the consumer group currently does not fetch. */
    ghost var held: iset<(string, int)>

    /** Transitions alternate, starting with a pause, and what is held back is what will be resumed. */
    ghost predicate Valid()
      reads this
    {
      && NoneEmpty(paused)
      && pauses == resumes + (if paused == map[] then 0 else 1)
      && forall t, p :: (t, p) in held <==> Lists(paused, t, p)
    }

    constructor ()
      ensures Valid() && paused == map[] && pauses == 0 && resumes == 0
    {
      paused, pauses, resumes, held := map[], 0, 0, iset{};
    }

    ghost method Pause(ps: Partitions)
      modifies this`held
      ensures forall t, p :: (t, p) in held <==> (t, p) in old(held) || Lists(ps, t, p)
    {
      held := held + iset t, p | Lists(ps, t, p) :: (t, p);
    }

    ghost method Resume(ps: Partitions)
      modifies this`held
      ensures forall t, p :: (t, p) in held <==> (t, p) in old(held) && !Lists(ps, t, p)
    {
      held := held - iset t, p | Lists(ps, t, p) :: (t, p);
    }

    /** Under pressure everything tracked is held back, once; without pressure nothing is. */
    method Observe(s: Snapshot)
      requires Valid()
      modifies this
      ensures Valid()
      ensures !Overloaded(s) ==> paused == map[] && pauses == old(pauses) && forall t, p :: (t, p) !in held
      ensures Overloaded(s) && old(paused) != map[] ==> paused == old(paused) && held == old(held) && pauses == old(pauses)
      ensures Overloaded(s) && old(paused) == map[] ==>
                forall t, p :: (t, p) in held <==> exists i | 0 <= i < |s.commits| :: Denotes(s.commits[i].key, t, p)
    {
      var pressure := HasHardPressure(s);
      if pressure && |paused| == 0 {
        var partitions := PausedPartitions(s);
        if |partitions| > 0 {
          paused := partitions;
          Pause(partitions);
          pauses := pauses + 1;
        }
        return;
      }
      if !pressure && |paused| > 0 {
        Resume(paused);
        paused := map[];
        resumes := resumes + 1;
      }
    }

    /** A rebalance makes the group forget some of its pauses; reconciling restores agreement. */
    method Reconcile(s: Snapshot)
      requires NoneEmpty(paused) && pauses == resumes + (if paused == map[] then 0 else 1)
      requires forall t, p :: (t, p) in held ==> Lists(paused, t, p)
      modifies this
      ensures Valid()
      ensures pauses == old(pauses)
      ensures paused == if Overloaded(s) then old(paused) else map[]
    {
      var pressure := HasHardPressure(s);
      if pressure && |paused| > 0 {
        Pause(paused);
        return;
      }
      if !pressure && |paused| > 0 {
        Resume(paused);
        paused := map[];
        resumes := resumes + 1;
      }
    }
  }
}
