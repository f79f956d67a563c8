/** One topic-partition of the Kafka consumer as a state machine.

    The broker log and its committed position, the ordered committer, and the tasks that
    handle fetched messages act in small steps. A session fetches upwards from the committed
    position; tasks of old sessions may live on; marks are flushed to the broker at any time
    or never. The environment guarantees only what the broker guarantees: fetching is in
    increasing order, a new session has a larger generation and starts after the old claim
    returned, and one subscription uses the committer. */
module KafkaDelivery {
  import opened Prelude
  import opened OrderedCommit
  import Runs = OrderedCommitRuns

  /** Where the task of one fetched message stands. `attempt` counts from 1. */
  datatype Phase =
    | Queued                          // submitted, not yet picked by a worker
    | Attempting(attempt: nat)        // about to observe cancellation and call the handler
    | BackingOff(attempt: nat)        // sleeping after a failed attempt
    | DeadLettering(attempt: nat)     // about to publish to the dead-letter topic
    | DlqBackingOff(attempt: nat)     // sleeping after a failed publish
    | Releasing                       // about to complete the gate
    | Finished                        // the gate has completed
    | Dropped                         // cancelled, rejected or abandoned

  datatype Task = Task(offset: int, generation: int, phase: Phase)

  /** `log` maps offsets to whether the record decodes; `maxAttempts` is the handler limit. */
  datatype Config = Config(log: map<int, bool>, maxAttempts: nat)

  datatype Delivery = Delivery(
    committed: int,          // the broker's committed position
    marked: int,             // the session's marked position
    generation: int,
    claimOpen: bool,         // ConsumeClaim of the current session has not returned
    start: int,              // where the session began to fetch
    cursor: int,             // the next position to fetch
    fetched: set<int>,       // offsets fetched by the session
    committer: CommitState,
    tasks: map<int, Task>,
    handled: set<int>,       // offsets for which some handler call returned nil
    deadLettered: set<int>)  // offsets with a record on the dead-letter topic

  predicate Settled(d: Delivery, offset: int) {
    offset in d.handled || offset in d.deadLettered
  }

  /** The session's position after a run of marks; marking never moves it back. */
  function MarkAll(position: int, offsets: seq<int>): int {
    if offsets == [] then position
    else Max(MarkAll(position, offsets[..|offsets| - 1]), offsets[|offsets| - 1] + 1)
  }

  // ------------------------------------------------------------------ steps

  predicate CanFetch(c: Config, d: Delivery, offset: int, id: int) {
    && d.claimOpen && id !in d.tasks
    && offset in c.log && d.cursor <= offset
    && forall o | o in c.log :: !(d.cursor <= o < offset)
  }

  /** Register, create the gate, submit. */
  function Fetch(d: Delivery, offset: int, id: int): Delivery {
    d.(cursor := offset + 1,
       fetched := d.fetched + {offset},
       committer := d.committer.Register(offset, d.generation, Some(offset)),
       tasks := d.tasks[id := Task(offset, d.generation, Queued)])
  }

  /** What can happen to a task in its current phase. */
  datatype Event =
    | Start                 // a worker picks the task and decodes the message
    | Cancel                // cancellation observed, submission rejected, or the worker abandoned
    | HandlerReturns(ok: bool)
    | Slept
    | Published(applied: bool, ok: bool)   // a dead-letter publish and what the producer reported
    | Release

  predicate Enabled(t: Task, e: Event) {
    match e
    case Start => t.phase.Queued?
    case Cancel => !t.phase.Releasing? && !t.phase.Finished? && !t.phase.Dropped?
    case HandlerReturns(_) => t.phase.Attempting?
    case Slept => t.phase.BackingOff? || t.phase.DlqBackingOff?
    case Published(applied, ok) => t.phase.DeadLettering? && (ok ==> applied)
    case Release => t.phase.Releasing?
  }

  /** The retry and dead-letter rules for one message. */
  function PhaseAfter(c: Config, t: Task, e: Event): Phase
    requires Enabled(t, e)
  {
    match e
    case Start => if t.offset in c.log && c.log[t.offset] then Attempting(1) else DeadLettering(1)
    case Cancel => Dropped
    case HandlerReturns(ok) =>
      if ok then Releasing
      else if t.phase.attempt >= c.maxAttempts then DeadLettering(t.phase.attempt)
      else BackingOff(t.phase.attempt)
    case Slept =>
      if t.phase.BackingOff? then Attempting(t.phase.attempt + 1) else DeadLettering(t.phase.attempt)
    case Published(_, ok) => if ok then Releasing else DlqBackingOff(t.phase.attempt)
    case Release => Finished
  }

  /** The completion of a gate: the committer may run mark callbacks. */
  function Complete(d: Delivery, t: Task): Delivery {
    d.(committer := d.committer.Complete(t.offset, t.generation),
       marked := MarkAll(d.marked, Runs.Offsets(d.committer.CompleteMarks(t.offset, t.generation))))
  }

  function TaskStep(c: Config, d: Delivery, id: int, e: Event): Delivery
    requires id in d.tasks && Enabled(d.tasks[id], e)
  {
    var t := d.tasks[id];
    var moved := d.(tasks := d.tasks[id := t.(phase := PhaseAfter(c, t, e))]);
    match e
    case HandlerReturns(ok) => if ok then moved.(handled := d.handled + {t.offset}) else moved
    case Published(applied, _) => if applied then moved.(deadLettered := d.deadLettered + {t.offset}) else moved
    case Release => Complete(moved, t)
    case _ => moved
  }

  /** Marks reach the broker. */
  function Flush(d: Delivery): Delivery {
    d.(committed := Max(d.committed, d.marked))
  }

  /** ConsumeClaim returns and aborts its generation. */
  function CloseClaim(d: Delivery): Delivery {
    d.(claimOpen := false, committer := d.committer.AbortGeneration(d.generation))
  }

  /** A rebalance hands the partition to a new session at the committed position; marks that
      were not flushed are forgotten. */
  function Rebalance(d: Delivery, generation: int): Delivery {
    d.(generation := generation, claimOpen := true, start := d.committed, cursor := d.committed,
       marked := d.committed, fetched := {})
  }

  /** The process dies: its committer and tasks are gone. */
  function Crash(d: Delivery): Delivery {
    d.(claimOpen := false, committer := EMPTY,
       tasks := map id | id in d.tasks :: d.tasks[id].(phase := if d.tasks[id].phase.Finished? then Finished else Dropped))
  }

  function RecordHighWater(d: Delivery, offset: int): Delivery {
    d.(committer := d.committer.RecordHighWaterMark(offset))
  }

  datatype Action =
    | DoFetch(offset: int, id: int)
    | DoTask(id: int, event: Event)
    | DoFlush
    | DoClose
    | DoRebalance(generation: int)
    | DoCrash
    | DoHighWater(offset: int)

  predicate CanDo(c: Config, d: Delivery, a: Action) {
    match a
    case DoFetch(offset, id) => CanFetch(c, d, offset, id)
    case DoTask(id, e) => id in d.tasks && Enabled(d.tasks[id], e)
    case DoClose => d.claimOpen
    case DoRebalance(generation) => !d.claimOpen && generation > d.generation
    case _ => true
  }

  function Do(c: Config, d: Delivery, a: Action): Delivery
    requires CanDo(c, d, a)
  {
    match a
    case DoFetch(offset, id) => Fetch(d, offset, id)
    case DoTask(id, e) => TaskStep(c, d, id, e)
    case DoFlush => Flush(d)
    case DoClose => CloseClaim(d)
    case DoRebalance(generation) => Rebalance(d, generation)
    case DoCrash => Crash(d)
    case DoHighWater(offset) => RecordHighWater(d, offset)
  }

  /** Before the first session: nothing below the committed position is in the log. */
  ghost predicate Init(c: Config, d: Delivery) {
    && (forall o | o in c.log :: d.committed <= o)
    && d == Delivery(d.committed, d.committed, 0, false, d.committed, d.committed, {}, EMPTY, map[], {}, {})
  }

  // -------------------------------------------------------------- invariant

  /** What the committer holds, against what this session fetched and what is settled. */
  ghost predicate CommitterInv(c: Config, d: Delivery) {
    && Inv(d.committer) && Runs.SelfMarked(d.committer)
    && (d.committer.initialized ==> d.claimOpen && d.committer.generation == d.generation && d.committer.lastRegistered + 1 == d.cursor)
    && (forall o | o in d.committer.states && d.committer.states[o].done :: Settled(d, o))
    && (d.claimOpen ==> forall o | o in c.log && o < d.cursor && o !in d.committer.states :: Settled(d, o))
  }

  ghost predicate PositionInv(c: Config, d: Delivery) {
    && d.start <= d.committed <= d.marked <= d.cursor
    && (forall o | o in c.log && o < d.marked :: Settled(d, o))
    && (forall o :: o in d.fetched <==> o in c.log && d.start <= o < d.cursor)
  }

  ghost predicate TaskInv(d: Delivery) {
    && (forall id | id in d.tasks && (d.tasks[id].phase.Releasing? || d.tasks[id].phase.Finished?) :: Settled(d, d.tasks[id].offset))
    && (forall id | id in d.tasks :: d.tasks[id].generation <= d.generation)
  }

  /** While the claim is open, what the session has fetched is still held or lies below its mark. */
  ghost predicate MarkInv(d: Delivery) {
    d.claimOpen ==> forall o | o in d.fetched && o !in d.committer.states :: o < d.marked
  }

  ghost predicate DeliveryInv(c: Config, d: Delivery) {
    CommitterInv(c, d) && PositionInv(c, d) && TaskInv(d) && MarkInv(d)
  }

  lemma InitEstablishes(c: Config, d: Delivery)
    requires Init(c, d)
    ensures DeliveryInv(c, d)
  {
    assert DoneOffsets(EMPTY.states) == {};
  }

  lemma FetchKeepsInv(c: Config, d: Delivery, offset: int, id: int)
    requires DeliveryInv(c, d) && CanFetch(c, d, offset, id)
    ensures DeliveryInv(c, Fetch(d, offset, id))
  {
    var s := d.committer;
    assert offset !in s.states && InOrder(s, offset, d.generation);
    RegisterKeepsInv(s, offset, d.generation, Some(offset));
    RegistrationHolds(s, offset, d.generation, Some(offset));
    assert forall o | o in c.log && o < offset :: o < d.cursor;
  }

  lemma {:induction false} MarkAllBounds(position: int, offsets: seq<int>, hi: int)
    requires forall i | 0 <= i < |offsets| :: offsets[i] < hi
    ensures position <= MarkAll(position, offsets) <= Max(position, hi)
  {
    if offsets != [] {
      MarkAllBounds(position, offsets[..|offsets| - 1], hi);
    }
  }

  function MarksOf(d: Delivery, offset: int, generation: int): seq<int> {
    Runs.Offsets(d.committer.CompleteMarks(offset, generation))
  }

  lemma MarksUnder(d: Delivery, offset: int, generation: int, lo: int, end: int)
    requires MarksRange(d.committer.CompleteMarks(offset, generation), d.committer.states, lo, end)
    ensures forall i | 0 <= i < |MarksOf(d, offset, generation)| :: MarksOf(d, offset, generation)[i] < end
  {
    var marks := d.committer.CompleteMarks(offset, generation);
    assert forall i | 0 <= i < |marks| :: marks[i] in marks;
  }

  /** What a settled task's completion does: everything released, marked or left done is
      settled, and `end` bounds the marks. */
  lemma CompletionEffect(c: Config, d: Delivery, offset: int, generation: int) returns (end: int)
    requires CommitterInv(c, d) && Settled(d, offset)
    ensures var t := d.committer.Complete(offset, generation);
            && Inv(t) && Runs.SelfMarked(t)
            && (t.initialized ==> d.committer.initialized && t.generation == d.committer.generation && t.lastRegistered == d.committer.lastRegistered)
            && (forall o | o in t.states && t.states[o].done :: Settled(d, o))
            && (forall o | o in d.committer.states && o !in t.states :: Settled(d, o))
    ensures forall i | 0 <= i < |MarksOf(d, offset, generation)| :: MarksOf(d, offset, generation)[i] < end
    ensures d.committer.initialized ==> end <= d.committer.lastRegistered + 1
    ensures !d.committer.initialized ==> MarksOf(d, offset, generation) == []
    ensures forall o | o in d.committer.states && o < end :: Settled(d, o)
  {
    var s := d.committer;
    CompleteKeepsInv(s, offset, generation);
    if s.Accepts(offset, generation) {
      end := CompletionReleasesPrefix(s, offset, generation);
      MarksUnder(d, offset, generation, s.nextOffset, end);
      EndWithinHeld(s, offset, end);
      ReleasedIsSettled(d, offset, s.Complete(offset, generation), end);
    } else {
      assert s.Complete(offset, generation) == s;
      end := s.nextOffset;
    }
  }

  lemma ReleasedIsSettled(d: Delivery, offset: int, t: CommitState, end: int)
    requires Inv(d.committer) && Runs.SelfMarked(d.committer) && Settled(d, offset)
    requires forall o | o in d.committer.states && d.committer.states[o].done :: Settled(d, o)
    requires forall k | d.committer.nextOffset <= k < end :: k in d.committer.states && (d.committer.states[k].done || k == offset)
    requires t.states.Keys == set k | k in d.committer.states && k >= end
    requires forall k | k in t.states :: t.states[k] == d.committer.states[k].(done := d.committer.states[k].done || k == offset)
    ensures Runs.SelfMarked(t)
    ensures forall o | o in t.states && t.states[o].done :: Settled(d, o)
    ensures forall o | o in d.committer.states && o < end :: Settled(d, o)
    ensures forall o | o in d.committer.states && o !in t.states :: Settled(d, o)
  {
    forall o | o in d.committer.states && o < end ensures Settled(d, o) {
      assert d.committer.nextOffset <= o;
    }
    assert forall o | o in t.states :: o in t.states.Keys;
    forall o | o in d.committer.states && o !in t.states ensures Settled(d, o) {
      assert o !in t.states.Keys;
    }
  }

  lemma EndWithinHeld(s: CommitState, offset: int, end: int)
    requires Inv(s) && offset in s.states
    requires s.nextOffset <= end && forall k | s.nextOffset <= k < end :: k in s.states
    ensures end <= s.lastRegistered + 1
  {
    if s.nextOffset < end {
      assert end - 1 in s.states;
    }
  }

  lemma {:induction false} MarkAllCovers(position: int, offsets: seq<int>, o: int)
    requires o in offsets
    ensures o < MarkAll(position, offsets)
  {
    var front := offsets[..|offsets| - 1];
    if o in front {
      MarkAllCovers(position, front, o);
    }
  }

  /** A completion moves the session's position past every offset it releases. */
  lemma ReleaseMovesPast(d: Delivery, t: Task, o: int)
    requires Inv(d.committer) && Runs.SelfMarked(d.committer)
    requires o in d.committer.states && o !in Complete(d, t).committer.states
    ensures o < Complete(d, t).marked
  {
    var s := d.committer;
    var marks := s.CompleteMarks(t.offset, t.generation);
    var end := CompletionReleasesPrefix(s, t.offset, t.generation);
    assert o !in s.Complete(t.offset, t.generation).states.Keys;
    assert s.nextOffset <= o < end && Mark(o, s.states[o].mark.value) in marks;
    var i :| 0 <= i < |marks| && marks[i] == Mark(o, s.states[o].mark.value);
    assert MarksOf(d, t.offset, t.generation)[i] == o;
    MarkAllCovers(d.marked, MarksOf(d, t.offset, t.generation), o);
  }

  lemma ReleaseKeepsMarks(d: Delivery, t: Task)
    requires Inv(d.committer) && Runs.SelfMarked(d.committer) && MarkInv(d)
    requires d.marked <= Complete(d, t).marked
    ensures MarkInv(Complete(d, t))
  {
    var d' := Complete(d, t);
    forall o | d.claimOpen && o in d.fetched && o !in d'.committer.states ensures o < d'.marked {
      if o in d.committer.states {
        ReleaseMovesPast(d, t, o);
      }
    }
  }

  lemma ReleaseKeepsInv(c: Config, d: Delivery, t: Task)
    requires DeliveryInv(c, d) && Settled(d, t.offset)
    ensures DeliveryInv(c, Complete(d, t))
  {
    var end := CompletionEffect(c, d, t.offset, t.generation);
    var d' := Complete(d, t);
    if d.committer.initialized {
      MarkAllBounds(d.marked, MarksOf(d, t.offset, t.generation), end);
      forall o | o in c.log && o < d'.marked ensures Settled(d, o) {
        if d.marked <= o {
          assert o < end && o < d.cursor;
        }
      }
    }
    ReleaseKeepsMarks(d, t);
  }

  lemma CloseKeepsInv(c: Config, d: Delivery)
    requires DeliveryInv(c, d)
    ensures DeliveryInv(c, CloseClaim(d))
  {
    assert DoneOffsets(EMPTY.states) == {};
  }

  lemma RebalanceKeepsInv(c: Config, d: Delivery, generation: int)
    requires DeliveryInv(c, d) && !d.claimOpen && generation > d.generation
    ensures DeliveryInv(c, Rebalance(d, generation))
  {
  }

  lemma CrashKeepsInv(c: Config, d: Delivery)
    requires DeliveryInv(c, d)
    ensures DeliveryInv(c, Crash(d))
  {
    assert DoneOffsets(EMPTY.states) == {};
    assert forall id | id in Crash(d).tasks :: Crash(d).tasks[id].phase.Finished? ==> d.tasks[id].phase.Finished?;
  }

  /** A task step other than the release settles at most its own offset, and only a handler
      that returned nil or a dead-letter record that was written settles it. */
  lemma TaskStepSettles(c: Config, d: Delivery, id: int, e: Event)
    requires id in d.tasks && Enabled(d.tasks[id], e)
    ensures var d', t := TaskStep(c, d, id, e), d.tasks[id];
            && (forall o :: Settled(d', o) <==> Settled(d, o) || (o == t.offset && (e == HandlerReturns(true) || (e.Published? && e.applied))))
            && (PhaseAfter(c, t, e).Releasing? ==> Settled(d', t.offset))
  {
  }

  lemma TaskKeepsInv(c: Config, d: Delivery, id: int, e: Event)
    requires DeliveryInv(c, d) && id in d.tasks && Enabled(d.tasks[id], e)
    ensures DeliveryInv(c, TaskStep(c, d, id, e))
  {
    TaskStepSettles(c, d, id, e);
    var t := d.tasks[id];
    var moved := d.(tasks := d.tasks[id := t.(phase := PhaseAfter(c, t, e))]);
    if e.Release? {
      assert Settled(d, t.offset);
      assert TaskInv(moved);
      ReleaseKeepsInv(c, moved, t);
    }
  }

  lemma StepKeepsInv(c: Config, d: Delivery, a: Action)
    requires DeliveryInv(c, d) && CanDo(c, d, a)
    ensures DeliveryInv(c, Do(c, d, a))
  {
    match a
    case DoFetch(offset, id) => FetchKeepsInv(c, d, offset, id);
    case DoTask(id, e) => TaskKeepsInv(c, d, id, e);
    case DoFlush =>
    case DoClose => CloseKeepsInv(c, d);
    case DoRebalance(generation) => RebalanceKeepsInv(c, d, generation);
    case DoCrash => CrashKeepsInv(c, d);
    case DoHighWater(offset) =>
  }

  // ---------------------------------------------------------------- all runs

  ghost predicate Next(c: Config, d: Delivery, d': Delivery) {
    exists a :: CanDo(c, d, a) && d' == Do(c, d, a)
  }

  ghost predicate Run(c: Config, ds: seq<Delivery>) {
    && ds != [] && Init(c, ds[0])
    && forall i | 0 <= i < |ds| - 1 :: Next(c, ds[i], ds[i + 1])
  }

  lemma {:induction false} RunKeepsInv(c: Config, ds: seq<Delivery>, i: nat)
    requires Run(c, ds) && i < |ds|
    ensures DeliveryInv(c, ds[i])
  {
    if i == 0 {
      InitEstablishes(c, ds[0]);
    } else {
      RunKeepsInv(c, ds, i - 1);
      assert Next(c, ds[i - 1], ds[i - 1 + 1]);
      var a :| CanDo(c, ds[i - 1], a) && ds[i] == Do(c, ds[i - 1], a);
      StepKeepsInv(c, ds[i - 1], a);
    }
  }

  /** Across any run of fetches, out-of-order completions, cancellations, aborts, crashes and
      rebalances: every log offset below the committed position, and every marked one, had a
      handler call that returned nil or a dead-letter record that was written. */
  lemma CommittedIsSettled(c: Config, ds: seq<Delivery>, i: nat)
    requires Run(c, ds) && i < |ds|
    ensures forall o | o in c.log && o < ds[i].committed :: Settled(ds[i], o)
    ensures forall o | o in c.log && o < ds[i].marked :: Settled(ds[i], o)
  {
    RunKeepsInv(c, ds, i);
  }

  /** While a claim is open every offset its session has fetched is held or marked, so once nothing
      is held the session has marked everything it fetched. */
  lemma FetchedIsHeldOrMarked(c: Config, ds: seq<Delivery>, i: nat)
    requires Run(c, ds) && i < |ds| && ds[i].claimOpen
    ensures forall o | o in ds[i].fetched :: o in ds[i].committer.states || o < ds[i].marked
    ensures ds[i].committer.states == map[] ==> forall o | o in c.log && ds[i].start <= o < ds[i].cursor :: o < ds[i].marked
  {
    RunKeepsInv(c, ds, i);
  }

  lemma StepKeepsCommitted(c: Config, d: Delivery, d': Delivery)
    requires DeliveryInv(c, d) && Next(c, d, d')
    ensures d.committed <= d'.committed
    ensures d'.generation != d.generation ==> d'.start == d.committed && d'.cursor == d.committed
  {
    var a :| CanDo(c, d, a) && d' == Do(c, d, a);
    if a.DoTask? {
      assert TaskStep(c, d, a.id, a.event).committed == d.committed;
    }
  }

  /** The committed position never moves back, and each later session starts at or above it. */
  lemma {:induction false} LaterSessionsStartAtCommitted(c: Config, ds: seq<Delivery>, i: nat, j: nat)
    requires Run(c, ds) && i <= j < |ds|
    ensures ds[i].committed <= ds[j].committed
    ensures ds[j].generation != ds[i].generation ==> ds[i].committed <= ds[j].start
  {
    if i < j {
      LaterSessionsStartAtCommitted(c, ds, i, j - 1);
      RunKeepsInv(c, ds, j - 1);
      assert Next(c, ds[j - 1], ds[j - 1 + 1]);
      StepKeepsCommitted(c, ds[j - 1], ds[j]);
      SessionStepKeepsStart(c, ds[j - 1], ds[j]);
    }
  }

  /** What was marked when marks reached the broker is not fetched again by any later session. */
  lemma FlushedIsNotFetchedAgain(c: Config, ds: seq<Delivery>, i: nat, j: nat, o: int)
    requires Run(c, ds) && i < j < |ds|
    requires CanDo(c, ds[i], DoFlush) && ds[i + 1] == Do(c, ds[i], DoFlush)
    requires o < ds[i].marked && ds[j].generation != ds[i].generation
    ensures o !in ds[j].fetched
  {
    RunKeepsInv(c, ds, i);
    RunKeepsInv(c, ds, j);
    LaterSessionsStartAtCommitted(c, ds, i + 1, j);
  }

  lemma SessionStepKeepsStart(c: Config, d: Delivery, d': Delivery)
    requires Next(c, d, d')
    ensures d.generation <= d'.generation
    ensures d.generation == d'.generation ==> d'.start == d.start
  {
    var a :| CanDo(c, d, a) && d' == Do(c, d, a);
    if a.DoTask? {
      assert TaskStep(c, d, a.id, a.event).start == d.start;
    }
  }

  lemma {:induction false} SessionKeepsStart(c: Config, ds: seq<Delivery>, i: nat, j: nat)
    requires Run(c, ds) && i <= j < |ds|
    ensures ds[i].generation <= ds[j].generation
    ensures ds[i].generation == ds[j].generation ==> ds[j].start == ds[i].start
  {
    if i < j {
      SessionKeepsStart(c, ds, i, j - 1);
      assert Next(c, ds[j - 1], ds[j - 1 + 1]);
      SessionStepKeepsStart(c, ds[j - 1], ds[j]);
    }
  }

  /** After a rebalance nothing unmarked is skipped: a log offset that was not marked when the
      new session began lies at or above its first position, and once the session has moved
      past it the session has fetched it. */
  lemma UnmarkedIsFetchedAgain(c: Config, ds: seq<Delivery>, i: nat, j: nat, generation: int, o: int)
    requires Run(c, ds) && i < j < |ds|
    requires CanDo(c, ds[i], DoRebalance(generation)) && ds[i + 1] == Do(c, ds[i], DoRebalance(generation))
    requires ds[j].generation == generation
    requires o in c.log && ds[i].marked <= o
    ensures ds[i + 1].cursor <= o
    ensures o in ds[j].fetched <==> o < ds[j].cursor
  {
    RunKeepsInv(c, ds, i);
    RunKeepsInv(c, ds, j);
    SessionKeepsStart(c, ds, i + 1, j);
  }

  /** An offset that is not settled is never below the position a later session starts from. */
  lemma UnsettledStaysAhead(c: Config, ds: seq<Delivery>, i: nat, o: int)
    requires Run(c, ds) && i < |ds| && o in c.log && !Settled(ds[i], o)
    ensures ds[i].committed <= o && ds[i].start <= o
    ensures ds[i].claimOpen && o < ds[i].cursor ==> o in ds[i].committer.states && !ds[i].committer.states[o].done
  {
    RunKeepsInv(c, ds, i);
  }

  // --------------------------------------------------------------- progress

  lemma {:induction false} LeastFrom(offsets: set<int>, from: int) returns (least: int)
    requires exists o :: o in offsets && from <= o
    ensures least in offsets && from <= least && forall o | o in offsets :: !(from <= o < least)
    decreases |offsets|
  {
    var first :| first in offsets && from <= first;
    var rest := offsets - {first};
    if exists o :: o in rest && from <= o {
      least := LeastFrom(rest, from);
      if first < least {
        least := first;
      }
    } else {
      least := first;
    }
    forall o | o in offsets ensures !(from <= o < least) {
      assert o == first || o in rest;
    }
  }

  /** A session can fetch exactly while its claim is open and the log reaches past its cursor; what it
      fetches is the next record there is. */
  lemma FetchesNext(c: Config, d: Delivery)
    ensures (exists offset, id :: CanFetch(c, d, offset, id)) <==> d.claimOpen && exists o :: o in c.log && d.cursor <= o
    ensures forall offset, id | CanFetch(c, d, offset, id) :: forall o | o in c.log && d.cursor <= o :: offset <= o
  {
    if d.claimOpen && exists o :: o in c.log && d.cursor <= o {
      var offset := LeastFrom(c.log.Keys, d.cursor);
      var id := AboveAll(d.tasks.Keys);
      assert CanFetch(c, d, offset, id);
    }
  }

  /** A task can always be cut short before it releases its gate, and can go on with its own work in
      every phase but the last two. */
  lemma TasksGoOn(c: Config, t: Task)
    ensures Enabled(t, Cancel) <==> !(t.phase.Releasing? || t.phase.Finished? || t.phase.Dropped?)
    ensures (exists e :: e != Cancel && Enabled(t, e)) <==> !(t.phase.Finished? || t.phase.Dropped?)
  {
    var e := match t.phase
             case Queued => Start
             case Attempting(_) => HandlerReturns(true)
             case BackingOff(_) => Slept
             case DeadLettering(_) => Published(true, true)
             case DlqBackingOff(_) => Slept
             case Releasing => Release
             case _ => Cancel;
    assert e != Cancel ==> Enabled(t, e);
  }

  // --------------------------------------------------- sessions that finish

  predicate OfSession(d: Delivery, id: int) {
    id in d.tasks && d.tasks[id].generation == d.generation
  }

  /** Every held offset has a task of the session, and a finished one has completed it. */
  ghost predicate TasksHold(d: Delivery) {
    d.claimOpen ==>
      && (forall o | o in d.committer.states :: exists id :: OfSession(d, id) && d.tasks[id].offset == o)
      && (forall id | OfSession(d, id) && d.tasks[id].phase.Finished? && d.tasks[id].offset in d.committer.states ::
            d.committer.states[d.tasks[id].offset].done)
      && (forall id | OfSession(d, id) :: d.tasks[id].offset < d.cursor)
  }

  lemma FetchKeepsTasks(c: Config, d: Delivery, offset: int, id: int)
    requires DeliveryInv(c, d) && TasksHold(d) && CanFetch(c, d, offset, id)
    ensures TasksHold(Fetch(d, offset, id))
  {
    var d' := Fetch(d, offset, id);
    assert offset !in d.committer.states && InOrder(d.committer, offset, d.generation);
    RegistrationHolds(d.committer, offset, d.generation, Some(offset));
    forall o | o in d'.committer.states ensures exists i :: OfSession(d', i) && d'.tasks[i].offset == o {
      if o == offset {
        assert OfSession(d', id);
      } else {
        var i :| OfSession(d, i) && d.tasks[i].offset == o;
        assert OfSession(d', i);
      }
    }
  }

  /** A release of a current task leaves its offset completed: released, or held and done. */
  lemma ReleaseCompletes(c: Config, d: Delivery, id: int)
    requires CommitterInv(c, d) && d.claimOpen && OfSession(d, id) && d.tasks[id].phase.Releasing?
    requires d.tasks[id].offset in d.committer.states
    ensures var s := TaskStep(c, d, id, Release).committer;
            d.tasks[id].offset in s.states ==> s.states[d.tasks[id].offset].done
  {
    var t := d.tasks[id];
    assert d.committer.Accepts(t.offset, t.generation);
    var end := CompletionReleasesPrefix(d.committer, t.offset, t.generation);
  }

  lemma ReleaseHoldsFewer(c: Config, d: Delivery, id: int, s: CommitState)
    requires CommitterInv(c, d) && id in d.tasks && d.tasks[id].phase.Releasing? && s == TaskStep(c, d, id, Release).committer
    ensures forall o | o in s.states :: o in d.committer.states && (d.committer.states[o].done ==> s.states[o].done)
  {
    var t := d.tasks[id];
    if d.committer.Accepts(t.offset, t.generation) {
      var end := CompletionReleasesPrefix(d.committer, t.offset, t.generation);
      assert forall o | o in s.states :: o in s.states.Keys;
    }
  }

  lemma ReleaseKeepsTasks(c: Config, d: Delivery, id: int)
    requires CommitterInv(c, d) && TasksHold(d) && id in d.tasks && d.tasks[id].phase.Releasing?
    ensures TasksHold(TaskStep(c, d, id, Release))
  {
    var t, d' := d.tasks[id], TaskStep(c, d, id, Release);
    ReleaseHoldsFewer(c, d, id, d'.committer);
    assert forall i :: OfSession(d', i) <==> OfSession(d, i);
    forall i | d.claimOpen && OfSession(d', i) && d'.tasks[i].phase.Finished? && d'.tasks[i].offset in d'.committer.states
      ensures d'.committer.states[d'.tasks[i].offset].done
    {
      if i == id {
        ReleaseCompletes(c, d, id);
      }
    }
    forall o | d.claimOpen && o in d'.committer.states ensures exists i :: OfSession(d', i) && d'.tasks[i].offset == o {
      var i :| OfSession(d, i) && d.tasks[i].offset == o;
      assert OfSession(d', i);
    }
  }

  lemma OtherTaskStepKeepsTasks(c: Config, d: Delivery, id: int, e: Event)
    requires TasksHold(d) && id in d.tasks && Enabled(d.tasks[id], e) && !e.Release?
    ensures TasksHold(TaskStep(c, d, id, e))
  {
    var d' := TaskStep(c, d, id, e);
    assert d'.committer == d.committer && !d'.tasks[id].phase.Finished?;
    forall o | d.claimOpen && o in d'.committer.states ensures exists i :: OfSession(d', i) && d'.tasks[i].offset == o {
      var i :| OfSession(d, i) && d.tasks[i].offset == o;
      assert OfSession(d', i);
    }
  }

  lemma StepKeepsTasks(c: Config, d: Delivery, a: Action)
    requires DeliveryInv(c, d) && TasksHold(d) && CanDo(c, d, a)
    ensures TasksHold(Do(c, d, a))
  {
    match a
    case DoFetch(offset, id) => FetchKeepsTasks(c, d, offset, id);
    case DoTask(id, e) =>
      if e.Release? {
        ReleaseKeepsTasks(c, d, id);
      } else {
        OtherTaskStepKeepsTasks(c, d, id, e);
      }
    case DoRebalance(generation) =>
      assert forall id :: !OfSession(Do(c, d, a), id);
    case _ =>
      assert forall id :: OfSession(Do(c, d, a), id) <==> OfSession(d, id);
  }

  lemma {:induction false} RunKeepsTasks(c: Config, ds: seq<Delivery>, i: nat)
    requires Run(c, ds) && i < |ds|
    ensures TasksHold(ds[i])
  {
    if i > 0 {
      RunKeepsTasks(c, ds, i - 1);
      RunKeepsInv(c, ds, i - 1);
      assert Next(c, ds[i - 1], ds[i - 1 + 1]);
      var a :| CanDo(c, ds[i - 1], a) && ds[i] == Do(c, ds[i - 1], a);
      StepKeepsTasks(c, ds[i - 1], a);
    }
  }

  /** Progress is not lost: when every task of an open session has finished and no offset that nobody
      registered is in the way, everything the session has fetched lies below its mark. */
  lemma FinishedSessionIsMarked(c: Config, ds: seq<Delivery>, i: nat)
    requires Run(c, ds) && i < |ds| && ds[i].claimOpen
    requires forall id | OfSession(ds[i], id) :: ds[i].tasks[id].phase.Finished?
    requires !exists x :: Runs.StuckAt(ds[i].committer, x)
    ensures forall o | o in ds[i].fetched :: o < ds[i].marked
  {
    RunKeepsTasks(c, ds, i);
    forall o | o in ds[i].committer.states ensures ds[i].committer.states[o].done {
      var id :| OfSession(ds[i], id) && ds[i].tasks[id].offset == o;
    }
    HeldAfterCompletionIffGap(c, ds, i);
    FetchedIsHeldOrMarked(c, ds, i);
  }

  // ------------------------------------------------------- gaps in the log

  /** Nothing above `x` is marked: either held offsets lie above `x`, which nobody registered, or
      the claim has returned. */
  ghost predicate HeldBack(d: Delivery, x: int) {
    d.marked <= x && (Runs.StuckAt(d.committer, x) || !d.claimOpen)
  }

  /** A fetch that skips offsets while earlier ones are held leaves the first skipped one in the way. */
  lemma GapHoldsBack(c: Config, d: Delivery, offset: int, id: int)
    requires DeliveryInv(c, d) && CanFetch(c, d, offset, id)
    requires d.committer.initialized && d.cursor < offset
    ensures HeldBack(Fetch(d, offset, id), d.cursor)
  {
    RegistrationHolds(d.committer, offset, d.generation, Some(offset));
    assert d.committer.lastRegistered in d.committer.states;
  }

  lemma {:induction false} MarksBelow(position: int, offsets: seq<int>, x: int)
    requires position <= x && forall i | 0 <= i < |offsets| :: offsets[i] < x
    ensures MarkAll(position, offsets) <= x
  {
    MarkAllBounds(position, offsets, x);
  }

  lemma CompletionStaysBelow(c: Config, d: Delivery, offset: int, generation: int, x: int)
    requires Inv(d.committer) && d.marked <= x
    requires Runs.StuckAt(d.committer, x) || !d.committer.initialized
    ensures MarkAll(d.marked, MarksOf(d, offset, generation)) <= x
  {
    var s := d.committer;
    if s.Accepts(offset, generation) {
      var end := CompletionReleasesPrefix(s, offset, generation);
      assert end <= x;
      MarksBelow(d.marked, MarksOf(d, offset, generation), x);
    }
  }

  lemma ReleaseKeepsHeldBack(c: Config, d: Delivery, t: Task, x: int)
    requires CommitterInv(c, d) && HeldBack(d, x)
    ensures HeldBack(Complete(d, t), x)
  {
    CompletionStaysBelow(c, d, t.offset, t.generation, x);
    if Runs.StuckAt(d.committer, x) {
      Runs.StepStuck(d.committer, d.generation, Runs.Complete(t.offset, t.generation), x);
    }
  }

  lemma TaskKeepsHeldBack(c: Config, d: Delivery, id: int, e: Event, x: int)
    requires DeliveryInv(c, d) && HeldBack(d, x) && id in d.tasks && Enabled(d.tasks[id], e)
    ensures HeldBack(TaskStep(c, d, id, e), x)
  {
    var t := d.tasks[id];
    if e.Release? {
      ReleaseKeepsHeldBack(c, d.(tasks := d.tasks[id := t.(phase := PhaseAfter(c, t, e))]), t, x);
    }
  }

  lemma StepKeepsHeldBack(c: Config, d: Delivery, a: Action, x: int)
    requires DeliveryInv(c, d) && CanDo(c, d, a) && HeldBack(d, x) && !a.DoRebalance?
    ensures HeldBack(Do(c, d, a), x)
  {
    match a
    case DoFetch(offset, id) =>
      Runs.StepStuck(d.committer, d.generation, Runs.Register(offset, d.generation), x);
    case DoTask(id, e) => TaskKeepsHeldBack(c, d, id, e, x);
    case _ =>
  }

  lemma HeldBackUntilRebalance(c: Config, d: Delivery, d': Delivery, x: int)
    requires DeliveryInv(c, d) && HeldBack(d, x) && Next(c, d, d') && d'.generation == d.generation
    ensures HeldBack(d', x)
  {
    var a :| CanDo(c, d, a) && d' == Do(c, d, a);
    StepKeepsHeldBack(c, d, a, x);
  }

  lemma HeldBackNext(c: Config, ds: seq<Delivery>, i: nat, x: int)
    requires Run(c, ds) && i + 1 < |ds| && HeldBack(ds[i], x) && ds[i + 1].generation == ds[i].generation
    ensures HeldBack(ds[i + 1], x)
  {
    RunKeepsInv(c, ds, i);
    assert Next(c, ds[i], ds[i + 1]);
    HeldBackUntilRebalance(c, ds[i], ds[i + 1], x);
  }

  lemma SameSession(c: Config, ds: seq<Delivery>, i: nat, j: nat, k: nat)
    requires Run(c, ds) && i <= j <= k < |ds| && ds[k].generation == ds[i].generation
    ensures ds[j].generation == ds[i].generation
  {
    SessionKeepsStart(c, ds, i, j);
    SessionKeepsStart(c, ds, j, k);
  }

  lemma {:induction false} HeldBackInSession(c: Config, ds: seq<Delivery>, i: nat, n: nat, x: int)
    requires Run(c, ds) && i <= n < |ds| && HeldBack(ds[i], x)
    requires forall k: nat | i <= k <= n :: ds[k].generation == ds[i].generation
    ensures HeldBack(ds[n], x)
  {
    var holds := (k: nat) => k < |ds| && HeldBack(ds[k], x);
    forall k: nat | i <= k < n && holds(k) ensures holds(k + 1) {
      HeldBackNext(c, ds, k, x);
    }
    StaysTrue(holds, i, n);
  }

  /** Once a session has fetched across a gap in the log while earlier offsets were held, its
      position stays at or below the gap, whatever completes and is flushed, until the next
      rebalance hands the partition over from there. */
  lemma GapHoldsPosition(c: Config, ds: seq<Delivery>, i: nat, j: nat, offset: int, id: int)
    requires Run(c, ds) && i < j < |ds|
    requires CanDo(c, ds[i], DoFetch(offset, id)) && ds[i + 1] == Do(c, ds[i], DoFetch(offset, id))
    requires ds[i].committer.initialized && ds[i].cursor < offset
    requires ds[j].generation == ds[i].generation
    ensures ds[j].committed <= ds[j].marked <= ds[i].cursor
  {
    RunKeepsInv(c, ds, i);
    RunKeepsInv(c, ds, j);
    GapHoldsBack(c, ds[i], offset, id);
    forall k: nat | i + 1 <= k <= j ensures ds[k].generation == ds[i + 1].generation {
      SameSession(c, ds, i, k, j);
      SameSession(c, ds, i, i + 1, j);
    }
    HeldBackInSession(c, ds, i + 1, j, ds[i].cursor);
  }

  /** When everything a session holds has completed, something is still held exactly if some
      offset that nobody registered is in its way. */
  lemma HeldAfterCompletionIffGap(c: Config, ds: seq<Delivery>, i: nat)
    requires Run(c, ds) && i < |ds|
    requires forall o | o in ds[i].committer.states :: ds[i].committer.states[o].done
    ensures ds[i].committer.states != map[] <==> exists x :: Runs.StuckAt(ds[i].committer, x)
  {
    RunKeepsInv(c, ds, i);
    var s := ds[i].committer;
    if s.states != map[] {
      assert s.initialized && s.lastRegistered in s.states;
      assert Runs.StuckAt(s, s.nextOffset);
    }
  }

  // ------------------------------------------------------------ retry limits

  /** Attempts stay within the limit; a decodable message reaches the dead-letter phase only
      after its last allowed attempt, a malformed one without any. */
  predicate RetryInv(c: Config, t: Task) {
    var decodes := t.offset in c.log && c.log[t.offset];
    match t.phase
    case Attempting(k) => decodes && 1 <= k <= c.maxAttempts
    case BackingOff(k) => decodes && 1 <= k < c.maxAttempts
    case DeadLettering(k) => k == if decodes then c.maxAttempts else 1
    case DlqBackingOff(k) => k == if decodes then c.maxAttempts else 1
    case _ => true
  }

  lemma StepBoundsAttempts(c: Config, d: Delivery, a: Action)
    requires c.maxAttempts >= 1 && CanDo(c, d, a)
    requires forall id | id in d.tasks :: RetryInv(c, d.tasks[id])
    ensures forall id | id in Do(c, d, a).tasks :: RetryInv(c, Do(c, d, a).tasks[id])
  {
    var d' := Do(c, d, a);
    forall id | id in d'.tasks ensures RetryInv(c, d'.tasks[id]) {
      if id in d.tasks {
        assert RetryInv(c, d.tasks[id]);
      }
    }
  }

  lemma {:induction false} AttemptsBounded(c: Config, ds: seq<Delivery>, i: nat)
    requires Run(c, ds) && i < |ds| && c.maxAttempts >= 1
    ensures forall id | id in ds[i].tasks :: RetryInv(c, ds[i].tasks[id])
  {
    if i > 0 {
      AttemptsBounded(c, ds, i - 1);
      assert Next(c, ds[i - 1], ds[i - 1 + 1]);
      var a :| CanDo(c, ds[i - 1], a) && ds[i] == Do(c, ds[i - 1], a);
      StepBoundsAttempts(c, ds[i - 1], a);
    }
  }
}
