/** Handling one Kafka message: the completion gate, the retry loop and the dead-letter loop.

    Cancellation, handler results, publish results and sleeps come from a script with one
    entry per loop iteration; after the script ends the session is cancelled. */
module MessageProcessing {
  import opened Prelude
  import opened OrderedCommit
  import Kafka = KafkaDelivery

  /** Aggregate gate counters. */
  class GateTracker {
    var inFlightMessages: int
    var waitingTasks: int
    var completedMessages: int

    constructor ()
      ensures inFlightMessages == 0 && waitingTasks == 0 && completedMessages == 0
    {
      inFlightMessages, waitingTasks, completedMessages := 0, 0, 0;
    }
  }

  class CompletionGate {
    const offset: int
    const generation: int
    const committer: PartitionOrderedCommitter
    const tracker: GateTracker
    var remainingTasks: int
    var completed: bool

    constructor (offset: int, generation: int, committer: PartitionOrderedCommitter, tracker: GateTracker)
      modifies tracker
      ensures this.offset == offset && this.generation == generation
      ensures this.committer == committer && this.tracker == tracker
      ensures remainingTasks == 0 && !completed
      ensures tracker.inFlightMessages == old(tracker.inFlightMessages) + 1
      ensures tracker.waitingTasks == old(tracker.waitingTasks) && tracker.completedMessages == old(tracker.completedMessages)
    {
      this.offset, this.generation, this.committer, this.tracker := offset, generation, committer, tracker;
      remainingTasks, completed := 0, false;
      new;
      tracker.inFlightMessages := tracker.inFlightMessages + 1;
    }

    method AddTask()
      modifies this`remainingTasks, tracker`waitingTasks
      ensures remainingTasks == old(remainingTasks) + 1
      ensures tracker.waitingTasks == old(tracker.waitingTasks) + 1
    {
      remainingTasks := remainingTasks + 1;
      tracker.waitingTasks := tracker.waitingTasks + 1;
    }

    /** The last task to finish completes the message. */
    method TaskDone() returns (marks: seq<Mark>)
      modifies this, tracker, committer
      ensures remainingTasks == old(remainingTasks) - 1
      ensures tracker.waitingTasks == old(tracker.waitingTasks) - 1
      ensures Released(old(remainingTasks) == 1, old(completed), old(committer.State()), old(tracker.inFlightMessages), old(tracker.completedMessages), marks)
    {
      remainingTasks := remainingTasks - 1;
      tracker.waitingTasks := tracker.waitingTasks - 1;
      marks := [];
      if remainingTasks == 0 {
        marks := Complete();
      }
    }

    method NoAsyncTaskCompleteNow() returns (marks: seq<Mark>)
      modifies this, tracker, committer
      ensures remainingTasks == old(remainingTasks) && tracker.waitingTasks == old(tracker.waitingTasks)
      ensures Released(old(remainingTasks) == 0, old(completed), old(committer.State()), old(tracker.inFlightMessages), old(tracker.completedMessages), marks)
    {
      marks := [];
      if remainingTasks == 0 {
        marks := Complete();
      }
    }

    /** Completion happens at most once per gate. */
    method Complete() returns (marks: seq<Mark>)
      modifies this`completed, tracker`inFlightMessages, tracker`completedMessages, committer
      ensures Released(true, old(completed), old(committer.State()), old(tracker.inFlightMessages), old(tracker.completedMessages), marks)
    {
      marks := [];
      if !completed {
        completed := true;
        tracker.inFlightMessages := tracker.inFlightMessages - 1;
        tracker.completedMessages := tracker.completedMessages + 1;
        marks := committer.Complete(offset, generation);
      }
    }

    /** The new state of gate, tracker and committer: if completion was due and had not
        happened, the offset is completed once; otherwise nothing moved. */
    ghost predicate Released(due: bool, wasCompleted: bool, before: CommitState, inFlight: int, total: int, marks: seq<Mark>)
      reads this, tracker, committer
    {
      var now := due && !wasCompleted;
      && completed == (wasCompleted || due)
      && committer.State() == (if now then before.Complete(offset, generation) else before)
      && marks == (if now then before.CompleteMarks(offset, generation) else [])
      && tracker.inFlightMessages == (if now then inFlight - 1 else inFlight)
      && tracker.completedMessages == (if now then total + 1 else total)
    }
  }

  class Metrics {
    var handlerSuccess: int
    var handlerFailure: int
    var handlerRetry: int
    var malformed: int
    var deadLetterSuccess: int
    var deadLetterFailure: int

    constructor ()
      ensures handlerSuccess == 0 && handlerFailure == 0 && handlerRetry == 0
      ensures malformed == 0 && deadLetterSuccess == 0 && deadLetterFailure == 0
    {
      handlerSuccess, handlerFailure, handlerRetry := 0, 0, 0;
      malformed, deadLetterSuccess, deadLetterFailure := 0, 0, 0;
    }
  }

  /** One iteration of a loop: whether cancellation is seen before the call, whether the handler
      returned nil (a panic is an error) or the publish succeeded, and whether the sleep after
      a failure ran to its end. */
  datatype Round = Round(cancelled: bool, succeeds: bool, slept: bool)

  function RoundAt(script: seq<Round>, i: nat): Round {
    if i < |script| then script[i] else Round(true, false, false)
  }

  /** The loop goes on after the round. */
  predicate Goes(round: Round) {
    !round.cancelled && !round.succeeds && round.slept
  }

  /** The session ended in the round: it was cancelled, or its sleep was cut short. */
  predicate Cut(round: Round) {
    round.cancelled || (!round.succeeds && !round.slept)
  }

  /** A loop consumed the rounds from `lo` up to `hi`, and `outcomes` is what its calls returned:
      every round but the last one went on, and only a cancelled round made no call. */
  ghost predicate Tried(script: seq<Round>, lo: nat, hi: nat, outcomes: seq<bool>) {
    && lo < hi
    && (forall i | lo <= i < hi - 1 :: Goes(RoundAt(script, i)))
    && |outcomes| == hi - lo - One(RoundAt(script, hi - 1).cancelled)
    && (forall i | 0 <= i < |outcomes| :: outcomes[i] == RoundAt(script, lo + i).succeeds)
  }

  /** The same for a loop that is still going on. */
  ghost predicate Trying(script: seq<Round>, lo: nat, hi: nat, outcomes: seq<bool>) {
    && lo <= hi && |outcomes| == hi - lo
    && (forall i | lo <= i < hi :: Goes(RoundAt(script, i)))
    && (forall i | 0 <= i < |outcomes| :: outcomes[i] == RoundAt(script, lo + i).succeeds)
  }

  lemma OneMoreRound(script: seq<Round>, lo: nat, hi: nat, outcomes: seq<bool>)
    requires Trying(script, lo, hi, outcomes)
    ensures var round := RoundAt(script, hi);
            && !Succeeded(outcomes)
            && (round.cancelled ==> Tried(script, lo, hi + 1, outcomes))
            && (!round.cancelled ==> Tried(script, lo, hi + 1, outcomes + [round.succeeds]))
            && (Goes(round) ==> Trying(script, lo, hi + 1, outcomes + [round.succeeds]))
  {
  }

  predicate Succeeded(outcomes: seq<bool>) {
    outcomes != [] && outcomes[|outcomes| - 1]
  }

  datatype Verdict = Handled | DeadLettered | Dropped

  /** Follow a task's events from a phase; `None` if one of them was not possible. */
  function Follow(c: Kafka.Config, t: Kafka.Task, events: seq<Kafka.Event>): Option<Kafka.Phase> {
    if events == [] then Some(t.phase)
    else
      match Follow(c, t, events[..|events| - 1])
      case None => None
      case Some(phase) =>
        var now := t.(phase := phase);
        if Kafka.Enabled(now, events[|events| - 1]) then Some(Kafka.PhaseAfter(c, now, events[|events| - 1])) else None
  }

  lemma {:induction false} FollowOne(c: Kafka.Config, t: Kafka.Task, events: seq<Kafka.Event>, phase: Kafka.Phase, e: Kafka.Event)
    requires Follow(c, t, events) == Some(phase) && Kafka.Enabled(t.(phase := phase), e)
    ensures Follow(c, t, events + [e]) == Some(Kafka.PhaseAfter(c, t.(phase := phase), e))
  {
    assert (events + [e])[..|events|] == events;
  }

  /** A failed attempt below the limit, and the sleep after it. */
  lemma {:induction false} FollowRetry(c: Kafka.Config, t: Kafka.Task, events: seq<Kafka.Event>, attempt: nat)
    requires Follow(c, t, events) == Some(Kafka.Attempting(attempt)) && attempt < c.maxAttempts
    ensures Follow(c, t, events + [Kafka.HandlerReturns(false)]) == Some(Kafka.BackingOff(attempt))
    ensures Follow(c, t, events + [Kafka.HandlerReturns(false)] + [Kafka.Slept]) == Some(Kafka.Attempting(attempt + 1))
    ensures Follow(c, t, events + [Kafka.HandlerReturns(false)] + [Kafka.Cancel]) == Some(Kafka.Dropped)
  {
    var failed := events + [Kafka.HandlerReturns(false)];
    FollowOne(c, t, events, Kafka.Attempting(attempt), Kafka.HandlerReturns(false));
    FollowOne(c, t, failed, Kafka.BackingOff(attempt), Kafka.Slept);
    FollowOne(c, t, failed, Kafka.BackingOff(attempt), Kafka.Cancel);
  }

  class Processor {
    const config: Kafka.Config
    const metrics: Metrics
    const script: seq<Round>
    var next: nat

    constructor (config: Kafka.Config, metrics: Metrics, script: seq<Round>)
      ensures this.config == config && this.metrics == metrics && this.script == script && next == 0
    {
      this.config, this.metrics, this.script, this.next := config, metrics, script, 0;
    }

    /** Every allowed attempt was made and failed. */
    predicate Exhausted(results: seq<bool>) {
      |results| >= config.maxAttempts && !Succeeded(results)
    }

    /** Retry the publish until it succeeds or the session is cancelled. A publish that sees
        the cancellation is not attempted. */
    method DeadLetterUntilDone(ghost t: Kafka.Task, ghost attempt: nat, ghost events: seq<Kafka.Event>)
      returns (ok: bool, ghost after: seq<Kafka.Event>, published: seq<bool>)
      requires Follow(config, t, events) == Some(Kafka.DeadLettering(attempt))
      modifies `next, metrics`deadLetterSuccess, metrics`deadLetterFailure
      ensures Follow(config, t, after) == Some(if ok then Kafka.Releasing else Kafka.Dropped)
      ensures Tried(script, old(next), next, published)
      ensures ok <==> Succeeded(published)
      ensures !ok <==> Cut(RoundAt(script, next - 1))
      ensures metrics.deadLetterSuccess == old(metrics.deadLetterSuccess) + One(ok)
      ensures metrics.deadLetterFailure == old(metrics.deadLetterFailure) + (next - old(next)) - One(ok)
    {
      after, published := events, [];
      while true
        invariant Follow(config, t, after) == Some(Kafka.DeadLettering(attempt))
        invariant Trying(script, old(next), next, published)
        invariant metrics.deadLetterSuccess == old(metrics.deadLetterSuccess)
        invariant next >= old(next) && metrics.deadLetterFailure == old(metrics.deadLetterFailure) + (next - old(next))
        decreases |script| - next
      {
        var round := RoundAt(script, next);
        OneMoreRound(script, old(next), next, published);
        next := next + 1;
        if !round.cancelled {
          published := published + [round.succeeds];
          FollowOne(config, t, after, Kafka.DeadLettering(attempt), Kafka.Published(round.succeeds, round.succeeds));
          after := after + [Kafka.Published(round.succeeds, round.succeeds)];
          if round.succeeds {
            metrics.deadLetterSuccess := metrics.deadLetterSuccess + 1;
            return true, after, published;
          }
        }
        metrics.deadLetterFailure := metrics.deadLetterFailure + 1;
        if round.cancelled || !round.slept {
          FollowOne(config, t, after, if round.cancelled then Kafka.DeadLettering(attempt) else Kafka.DlqBackingOff(attempt), Kafka.Cancel);
          after := after + [Kafka.Cancel];
          return false, after, published;
        }
        FollowOne(config, t, after, Kafka.DlqBackingOff(attempt), Kafka.Slept);
        after := after + [Kafka.Slept];
      }
    }

    /** Handler attempts up to the limit. `results` lists what each attempt returned, so the
        i-th entry is attempt i + 1. */
    method CallUntilDecided(t: Kafka.Task) returns (verdict: Verdict, results: seq<bool>, ghost after: seq<Kafka.Event>)
      requires t.phase == Kafka.Queued && t.offset in config.log && config.log[t.offset] && config.maxAttempts >= 1
      modifies `next, metrics`handlerSuccess, metrics`handlerFailure, metrics`handlerRetry
      ensures Tried(script, old(next), next, results) && |results| <= config.maxAttempts
      ensures verdict.Handled? <==> Succeeded(results)
      ensures verdict.DeadLettered? <==> Exhausted(results)
      ensures verdict.Dropped? <==> Cut(RoundAt(script, next - 1)) && !Exhausted(results)
      ensures metrics.handlerSuccess == old(metrics.handlerSuccess) + One(verdict.Handled?)
      ensures metrics.handlerFailure == old(metrics.handlerFailure) + |results| - One(verdict.Handled?)
      ensures metrics.handlerFailure - old(metrics.handlerFailure) == metrics.handlerRetry - old(metrics.handlerRetry) + One(verdict.DeadLettered?)
      ensures Follow(config, t, after) == Some(
                match verdict
                case Handled => Kafka.Releasing
                case DeadLettered => Kafka.DeadLettering(config.maxAttempts)
                case Dropped => Kafka.Dropped)
    {
      results, after := [], [];
      FollowOne(config, t, after, Kafka.Queued, Kafka.Start);
      after := after + [Kafka.Start];
      var attempt := 1;
      while true
        invariant attempt == |results| + 1 && attempt <= config.maxAttempts
        invariant Trying(script, old(next), next, results)
        invariant Follow(config, t, after) == Some(Kafka.Attempting(attempt))
        invariant metrics.handlerSuccess == old(metrics.handlerSuccess)
        invariant metrics.handlerFailure == old(metrics.handlerFailure) + |results|
        invariant metrics.handlerRetry == old(metrics.handlerRetry) + |results|
        decreases |script| - next
      {
        var round := RoundAt(script, next);
        OneMoreRound(script, old(next), next, results);
        next := next + 1;
        if round.cancelled {
          FollowOne(config, t, after, Kafka.Attempting(attempt), Kafka.Cancel);
          return Dropped, results, after + [Kafka.Cancel];
        }
        results := results + [round.succeeds];
        if round.succeeds {
          metrics.handlerSuccess := metrics.handlerSuccess + 1;
          FollowOne(config, t, after, Kafka.Attempting(attempt), Kafka.HandlerReturns(true));
          return Handled, results, after + [Kafka.HandlerReturns(true)];
        }
        metrics.handlerFailure := metrics.handlerFailure + 1;
        if attempt >= config.maxAttempts {
          FollowOne(config, t, after, Kafka.Attempting(attempt), Kafka.HandlerReturns(false));
          return DeadLettered, results, after + [Kafka.HandlerReturns(false)];
        }
        FollowRetry(config, t, after, attempt);
        after := after + [Kafka.HandlerReturns(false)];
        metrics.handlerRetry := metrics.handlerRetry + 1;
        if !round.slept {
          return Dropped, results, after + [Kafka.Cancel];
        }
        after := after + [Kafka.Slept];
        attempt := attempt + 1;
      }
    }

    /** What the outcomes are in terms of the script. Up to `mid` the handler was called, from
        there on the message was dead-lettered, which happens exactly to a malformed message and
        after the last allowed attempt; the message is dropped exactly if its last round was cut. */
    ghost predicate Decided(decodes: bool, lo: nat, mid: nat, hi: nat, verdict: Verdict, results: seq<bool>, published: seq<bool>) {
      && (if decodes then Tried(script, lo, mid, results) && |results| <= config.maxAttempts else mid == lo && results == [])
      && (if !decodes || Exhausted(results) then Tried(script, mid, hi, published) else mid == hi && published == [])
      && (verdict.Handled? <==> Succeeded(results))
      && (verdict.DeadLettered? <==> Succeeded(published))
      && lo < hi && (verdict.Dropped? <==> Cut(RoundAt(script, hi - 1)))
    }

    /** Handler calls and dead-letter publishes of one message. Failures are retries plus the
        exhausted message. */
    method Decide(t: Kafka.Task)
      returns (verdict: Verdict, results: seq<bool>, published: seq<bool>, ghost mid: nat, ghost after: seq<Kafka.Event>)
      requires t.phase == Kafka.Queued && t.offset in config.log && config.maxAttempts >= 1
      modifies `next, metrics
      ensures Decided(config.log[t.offset], old(next), mid, next, verdict, results, published)
      ensures metrics.malformed == old(metrics.malformed) + One(!config.log[t.offset])
      ensures metrics.handlerSuccess == old(metrics.handlerSuccess) + One(verdict.Handled?)
      ensures metrics.handlerFailure == old(metrics.handlerFailure) + |results| - One(verdict.Handled?)
      ensures metrics.handlerFailure - old(metrics.handlerFailure) ==
              metrics.handlerRetry - old(metrics.handlerRetry) + One(config.log[t.offset] && Exhausted(results))
      ensures metrics.deadLetterSuccess == old(metrics.deadLetterSuccess) + One(verdict.DeadLettered?)
      ensures metrics.deadLetterFailure == old(metrics.deadLetterFailure) + (next - mid) - One(verdict.DeadLettered?)
      ensures Follow(config, t, after) == Some(if verdict.Dropped? then Kafka.Dropped else Kafka.Releasing)
    {
      results, published, mid := [], [], next;
      var ok: bool;
      if !config.log[t.offset] {
        metrics.malformed := metrics.malformed + 1;
        FollowOne(config, t, [], Kafka.Queued, Kafka.Start);
        ok, after, published := DeadLetterUntilDone(t, 1, [] + [Kafka.Start]);
        verdict := if ok then DeadLettered else Dropped;
        return;
      }
      verdict, results, after := CallUntilDecided(t);
      mid := next;
      if verdict.DeadLettered? {
        ok, after, published := DeadLetterUntilDone(t, config.maxAttempts, after);
        verdict := if ok then DeadLettered else Dropped;
      }
    }

    /** One message to its end. Its offset is completed exactly when the handler succeeded or a
        dead-letter publish did; the steps taken are steps of the task in the delivery machine. */
    method ProcessConsumerMessage(t: Kafka.Task, gate: CompletionGate)
      returns (verdict: Verdict, results: seq<bool>, published: seq<bool>, marks: seq<Mark>, ghost mid: nat, ghost after: seq<Kafka.Event>)
      requires t.phase == Kafka.Queued && t.offset in config.log && config.maxAttempts >= 1
      requires gate.offset == t.offset && gate.generation == t.generation
      requires gate.remainingTasks == 0 && !gate.completed
      modifies `next, metrics, gate, gate.tracker, gate.committer
      ensures Decided(config.log[t.offset], old(next), mid, next, verdict, results, published)
      ensures next <= |script| ==>
                (verdict.Dropped? <==> script[next - 1].cancelled || (!script[next - 1].succeeds && !script[next - 1].slept))
      ensures next <= |script| && !verdict.Dropped? ==> script[next - 1].succeeds
      ensures published != [] ==> !config.log[t.offset] || |results| == config.maxAttempts
      ensures |results| <= config.maxAttempts && forall i | 0 <= i < |results| - 1 :: !results[i]
      ensures forall i | 0 <= i < |published| - 1 :: !published[i]
      ensures gate.completed == !verdict.Dropped?
      ensures gate.committer.State() ==
              (if verdict.Dropped? then old(gate.committer.State())
               else old(gate.committer.State()).Complete(t.offset, t.generation))
      ensures marks == (if verdict.Dropped? then [] else old(gate.committer.State()).CompleteMarks(t.offset, t.generation))
      ensures gate.tracker.inFlightMessages == old(gate.tracker.inFlightMessages) - One(!verdict.Dropped?)
      ensures metrics.malformed == old(metrics.malformed) + One(!config.log[t.offset])
      ensures metrics.handlerSuccess == old(metrics.handlerSuccess) + One(verdict.Handled?)
      ensures metrics.handlerFailure == old(metrics.handlerFailure) + |results| - One(verdict.Handled?)
      ensures metrics.handlerFailure - old(metrics.handlerFailure) ==
              metrics.handlerRetry - old(metrics.handlerRetry) + One(config.log[t.offset] && Exhausted(results))
      ensures metrics.deadLetterSuccess == old(metrics.deadLetterSuccess) + One(verdict.DeadLettered?)
      ensures metrics.deadLetterFailure == old(metrics.deadLetterFailure) + (next - mid) - One(verdict.DeadLettered?)
      ensures Follow(config, t, after) == Some(if verdict.Dropped? then Kafka.Dropped else Kafka.Finished)
    {
      marks := [];
      if config.log[t.offset] {
        gate.AddTask();
      }
      verdict, results, published, mid, after := Decide(t);
      if verdict.Dropped? {
        return;
      }
      if config.log[t.offset] {
        marks := gate.TaskDone();
      } else {
        marks := gate.NoAsyncTaskCompleteNow();
      }
      FollowOne(config, t, after, Kafka.Releasing, Kafka.Release);
      after := after + [Kafka.Release];
    }
  }
}
