/** The bounded worker pool shared by the partition claims of a consumer, one atomic operation
    per step: any number of claims submit, a fixed number of workers run, and shutdown,
    cancellation and panics may strike between any two operations. */
module WorkerPool {
  import opened Prelude

  type Task = nat

  /** Where a claim stands in its loop and inside Submit. */
  datatype Claim =
    | Fetching
    | Registered(task: Task)   // before the closed flag is read
    | Admitted(task: Task)     // the pool was open
    | Waiting(task: Task)      // counted as queued, blocked in the select
    | Sent                     // the channel took the task, the acceptance is not counted yet
    | Withdrawn(task: Task)    // cancellation or shutdown won, still counted as queued
    | Bounced(task: Task)      // about to count the rejection
    | Left

  datatype Worker =
    | Idle
    | Picked(task: Task)       // received, still counted as queued
    | Running(task: Task)
    | Ending                   // returned or recovered, completion not counted yet
    | Stopped

  /** The one place a registered task is at. */
  datatype Place = AtClaim(claim: nat) | InChannel | AtWorker(worker: nat) | Over(done: bool)

  datatype Pool = Pool(
    capacity: nat, claims: seq<Claim>, workers: seq<Worker>, channel: seq<Task>,
    queued: int, submitted: int, completed: int, rejected: int,
    closed: bool, shut: bool, cancelled: bool, panicked: bool,
    places: seq<Place>, done: nat, lost: nat)

  datatype Step =
    | Fetch(c: nat) | Load(c: nat) | Announce(c: nat) | Send(c: nat) | CountSubmitted(c: nat)
    | Withdraw(c: nat) | Uncount(c: nat) | Reject(c: nat) | Leave(c: nat)
    | Receive(w: nat) | Start(w: nat) | Finish(w: nat) | Abandon(w: nat) | Panic(w: nat) | CountCompleted(w: nat) | Stop(w: nat)
    | Close | Shut | Cancel

  // ------------------------------------------------------------------ steps

  predicate ClaimStep(s: Step) {
    s.Fetch? || s.Load? || s.Announce? || s.Send? || s.CountSubmitted? || s.Withdraw? || s.Uncount? || s.Reject? || s.Leave?
  }

  predicate WorkerStep(s: Step) {
    s.Receive? || s.Start? || s.Finish? || s.Abandon? || s.Panic? || s.CountCompleted? || s.Stop?
  }

  predicate ClaimEnabled(p: Pool, c: Claim, s: Step)
    requires ClaimStep(s)
  {
    match s
    case Fetch(_) => c.Fetching?
    case Load(_) => c.Registered?
    case Announce(_) => c.Admitted?
    case Send(_) => c.Waiting? && |p.channel| < p.capacity
    case CountSubmitted(_) => c.Sent?
    case Withdraw(_) => c.Waiting? && (p.cancelled || p.shut)
    case Uncount(_) => c.Withdrawn?
    case Reject(_) => c.Bounced?
    case Leave(_) => c.Fetching?
  }

  predicate WorkerEnabled(p: Pool, w: Worker, s: Step)
    requires WorkerStep(s)
  {
    match s
    case Receive(_) => w.Idle? && p.channel != []
    case Start(_) => w.Picked?
    case Finish(_) => w.Running?
    case Abandon(_) => w.Running? && p.cancelled
    case Panic(_) => w.Running?
    case CountCompleted(_) => w.Ending?
    case Stop(_) => w.Idle? && p.shut
  }

  predicate Enabled(p: Pool, s: Step) {
    if ClaimStep(s) then s.c < |p.claims| && ClaimEnabled(p, p.claims[s.c], s)
    else if WorkerStep(s) then s.w < |p.workers| && WorkerEnabled(p, p.workers[s.w], s)
    else s.Close? || (s.Shut? && p.closed) || s.Cancel?
  }

  function At(p: Pool, t: Task, place: Place): seq<Place> {
    if t < |p.places| then p.places[t := place] else p.places
  }

  function ClaimAfter(p: Pool, now: Claim, s: Step): Claim
    requires ClaimStep(s) && ClaimEnabled(p, now, s)
  {
    match s
    case Fetch(_) => Registered(|p.places|)
    case Load(_) => if p.closed then Bounced(now.task) else Admitted(now.task)
    case Announce(_) => Waiting(now.task)
    case Send(_) => Sent
    case CountSubmitted(_) => Fetching
    case Withdraw(_) => Withdrawn(now.task)
    case Uncount(_) => Bounced(now.task)
    case Reject(_) => Left
    case Leave(_) => Left
  }

  function ApplyClaim(p: Pool, c: nat, s: Step): Pool
    requires ClaimStep(s) && c < |p.claims| && ClaimEnabled(p, p.claims[c], s)
  {
    var now := p.claims[c];
    p.(claims := p.claims[c := ClaimAfter(p, now, s)],
       channel := if s.Send? then p.channel + [now.task] else p.channel,
       queued := p.queued + One(s.Announce?) - One(s.Uncount?),
       submitted := p.submitted + One(s.CountSubmitted?),
       rejected := p.rejected + One(s.Reject?),
       lost := p.lost + One(s.Reject?),
       places := if s.Fetch? then p.places + [AtClaim(c)]
                 else if s.Send? then At(p, now.task, InChannel)
                 else if s.Reject? then At(p, now.task, Over(false))
                 else p.places)
  }

  function WorkerAfter(p: Pool, now: Worker, s: Step): Worker
    requires WorkerStep(s) && WorkerEnabled(p, now, s)
  {
    match s
    case Receive(_) => Picked(p.channel[0])
    case Start(_) => Running(now.task)
    case Finish(_) => Ending
    case Abandon(_) => Ending
    case Panic(_) => Ending
    case CountCompleted(_) => Idle
    case Stop(_) => Stopped
  }

  function ApplyWorker(p: Pool, w: nat, s: Step): Pool
    requires WorkerStep(s) && w < |p.workers| && WorkerEnabled(p, p.workers[w], s)
  {
    var now := p.workers[w];
    p.(workers := p.workers[w := WorkerAfter(p, now, s)],
       channel := if s.Receive? then p.channel[1..] else p.channel,
       queued := p.queued - One(s.Start?),
       completed := p.completed + One(s.CountCompleted?),
       done := p.done + One(s.Finish?),
       lost := p.lost + One(s.Abandon? || s.Panic?),
       panicked := p.panicked || s.Panic?,
       places := if s.Receive? then At(p, p.channel[0], AtWorker(w))
                 else if s.Finish? then At(p, now.task, Over(true))
                 else if s.Abandon? || s.Panic? then At(p, now.task, Over(false))
                 else p.places)
  }

  function Apply(p: Pool, s: Step): Pool
    requires Enabled(p, s)
  {
    if ClaimStep(s) then ApplyClaim(p, s.c, s)
    else if WorkerStep(s) then ApplyWorker(p, s.w, s)
    else if s.Close? then p.(closed := true)
    else if s.Shut? then p.(shut := true)
    else p.(cancelled := true)
  }

  // --------------------------------------------------------------- counting

  function Count<T>(s: seq<T>, p: T -> bool, n: nat): nat
    requires n <= |s|
  {
    if n == 0 then 0 else Count(s, p, n - 1) + if p(s[n - 1]) then 1 else 0
  }

  function All<T>(s: seq<T>, p: T -> bool): nat {
    Count(s, p, |s|)
  }

  lemma {:induction false} CountUpdate<T>(s: seq<T>, p: T -> bool, i: nat, x: T, n: nat)
    requires i < |s| && n <= |s|
    ensures i < n ==> Count(s[i := x], p, n) + One(p(s[i])) == Count(s, p, n) + One(p(x))
    ensures n <= i ==> Count(s[i := x], p, n) == Count(s, p, n)
  {
    if n > 0 {
      CountUpdate(s, p, i, x, n - 1);
    }
  }

  lemma {:induction false} CountBound<T>(s: seq<T>, p: T -> bool, n: nat)
    requires n <= |s|
    ensures Count(s, p, n) <= n
    ensures (forall i | 0 <= i < n :: !p(s[i])) ==> Count(s, p, n) == 0
  {
    if n > 0 {
      CountBound(s, p, n - 1);
    }
  }

  const CountsQueued: Claim -> bool := (c: Claim) => c.Waiting? || c.Withdrawn?
  const IsSent: Claim -> bool := (c: Claim) => c.Sent?
  const HoldsTask: Claim -> bool := (c: Claim) => c.Registered? || c.Admitted? || c.Waiting? || c.Withdrawn? || c.Bounced?
  const IsPicked: Worker -> bool := (w: Worker) => w.Picked?
  const WorksTask: Worker -> bool := (w: Worker) => w.Picked? || w.Running?
  const Uncounted: Worker -> bool := (w: Worker) => w.Picked? || w.Running? || w.Ending?

  // -------------------------------------------------------------- invariant

  /** What the counters of a pool say about how many claims and workers are in which state. */
  predicate Balanced(p: Pool, waiting: nat, sent: nat, holding: nat, picked: nat, working: nat, uncounted: nat) {
    && p.queued == waiting + |p.channel| + picked
    && p.submitted + sent == |p.channel| + uncounted + p.completed
    && |p.places| == holding + |p.channel| + working + p.done + p.lost
    && |p.channel| <= p.capacity
  }

  /** Why a task may be lost, and why a claim may have given up. */
  predicate LossInv(p: Pool) {
    && (p.lost > 0 ==> p.cancelled || p.closed || p.panicked)
    && (p.shut ==> p.closed)
    && (forall c | 0 <= c < |p.claims| && (p.claims[c].Bounced? || p.claims[c].Withdrawn?) :: p.cancelled || p.closed)
  }

  /** The counters account for every task. */
  predicate CountInv(p: Pool) {
    && Balanced(p, All(p.claims, CountsQueued), All(p.claims, IsSent), All(p.claims, HoldsTask),
                All(p.workers, IsPicked), All(p.workers, WorksTask), All(p.workers, Uncounted))
    && LossInv(p)
  }

  lemma ClaimCounts(p: Pool, c: nat, x: Claim)
    requires c < |p.claims|
    ensures All(p.claims[c := x], CountsQueued) + One(CountsQueued(p.claims[c])) == All(p.claims, CountsQueued) + One(CountsQueued(x))
    ensures All(p.claims[c := x], IsSent) + One(IsSent(p.claims[c])) == All(p.claims, IsSent) + One(IsSent(x))
    ensures All(p.claims[c := x], HoldsTask) + One(HoldsTask(p.claims[c])) == All(p.claims, HoldsTask) + One(HoldsTask(x))
  {
    CountUpdate(p.claims, CountsQueued, c, x, |p.claims|);
    CountUpdate(p.claims, IsSent, c, x, |p.claims|);
    CountUpdate(p.claims, HoldsTask, c, x, |p.claims|);
  }

  lemma WorkerCounts(p: Pool, w: nat, x: Worker)
    requires w < |p.workers|
    ensures All(p.workers[w := x], IsPicked) + One(IsPicked(p.workers[w])) == All(p.workers, IsPicked) + One(IsPicked(x))
    ensures All(p.workers[w := x], WorksTask) + One(WorksTask(p.workers[w])) == All(p.workers, WorksTask) + One(WorksTask(x))
    ensures All(p.workers[w := x], Uncounted) + One(Uncounted(p.workers[w])) == All(p.workers, Uncounted) + One(Uncounted(x))
  {
    CountUpdate(p.workers, IsPicked, w, x, |p.workers|);
    CountUpdate(p.workers, WorksTask, w, x, |p.workers|);
    CountUpdate(p.workers, Uncounted, w, x, |p.workers|);
  }

  lemma ClaimMoves(p: Pool, now: Claim, s: Step)
    requires ClaimStep(s) && ClaimEnabled(p, now, s)
    ensures var next := ClaimAfter(p, now, s);
            && One(CountsQueued(next)) - One(CountsQueued(now)) == One(s.Announce?) - One(s.Uncount?) - One(s.Send?)
            && One(IsSent(next)) - One(IsSent(now)) == One(s.Send?) - One(s.CountSubmitted?)
            && One(HoldsTask(next)) - One(HoldsTask(now)) == One(s.Fetch?) - One(s.Send?) - One(s.Reject?)
  {
  }

  lemma WorkerMoves(p: Pool, now: Worker, s: Step)
    requires WorkerStep(s) && WorkerEnabled(p, now, s)
    ensures var next := WorkerAfter(p, now, s);
            && One(IsPicked(next)) - One(IsPicked(now)) == One(s.Receive?) - One(s.Start?)
            && One(WorksTask(next)) - One(WorksTask(now)) == One(s.Receive?) - One(s.Finish?) - One(s.Abandon? || s.Panic?)
            && One(Uncounted(next)) - One(Uncounted(now)) == One(s.Receive?) - One(s.CountCompleted?)
  {
  }

  /** A step changes only the claim or the worker that takes it. */
  lemma ClaimStepShape(p: Pool, s: Step, q: Pool)
    requires ClaimStep(s) && Enabled(p, s) && q == ApplyClaim(p, s.c, s)
    ensures q.workers == p.workers && q.capacity == p.capacity
    ensures s.c < |p.claims| && q.claims == p.claims[s.c := ClaimAfter(p, p.claims[s.c], s)]
  {
  }

  lemma WorkerStepShape(p: Pool, s: Step, q: Pool)
    requires WorkerStep(s) && Enabled(p, s) && q == ApplyWorker(p, s.w, s)
    ensures q.claims == p.claims && q.capacity == p.capacity
    ensures s.w < |p.workers| && q.workers == p.workers[s.w := WorkerAfter(p, p.workers[s.w], s)]
  {
  }

  lemma StepKeepsSizes(p: Pool, s: Step, q: Pool)
    requires Enabled(p, s) && q == Apply(p, s)
    ensures q.capacity == p.capacity && |q.claims| == |p.claims| && |q.workers| == |p.workers|
  {
    if ClaimStep(s) {
      ClaimStepShape(p, s, q);
    } else if WorkerStep(s) {
      WorkerStepShape(p, s, q);
    }
  }

  lemma StepKeepsLosses(p: Pool, s: Step, q: Pool)
    requires LossInv(p) && Enabled(p, s) && q == Apply(p, s)
    ensures LossInv(q)
  {
  }

  lemma ClaimStepKeepsBalance(p: Pool, s: Step, q: Pool, waiting: nat, sent: nat, holding: nat, waiting': nat, sent': nat, holding': nat,
                              picked: nat, working: nat, uncounted: nat)
    requires ClaimStep(s) && Enabled(p, s) && q == ApplyClaim(p, s.c, s)
    requires Balanced(p, waiting, sent, holding, picked, working, uncounted)
    requires waiting' - waiting == One(s.Announce?) - One(s.Uncount?) - One(s.Send?)
    requires sent' - sent == One(s.Send?) - One(s.CountSubmitted?)
    requires holding' - holding == One(s.Fetch?) - One(s.Send?) - One(s.Reject?)
    ensures Balanced(q, waiting', sent', holding', picked, working, uncounted)
  {
  }

  lemma WorkerStepKeepsBalance(p: Pool, s: Step, q: Pool, waiting: nat, sent: nat, holding: nat,
                               picked: nat, working: nat, uncounted: nat, picked': nat, working': nat, uncounted': nat)
    requires WorkerStep(s) && Enabled(p, s) && q == ApplyWorker(p, s.w, s)
    requires Balanced(p, waiting, sent, holding, picked, working, uncounted)
    requires picked' - picked == One(s.Receive?) - One(s.Start?)
    requires working' - working == One(s.Receive?) - One(s.Finish?) - One(s.Abandon? || s.Panic?)
    requires uncounted' - uncounted == One(s.Receive?) - One(s.CountCompleted?)
    ensures Balanced(q, waiting, sent, holding, picked', working', uncounted')
  {
  }

  lemma ClaimStepKeepsCounts(p: Pool, s: Step, q: Pool)
    requires CountInv(p) && ClaimStep(s) && Enabled(p, s) && q == ApplyClaim(p, s.c, s) && LossInv(q)
    ensures CountInv(q)
  {
    var picked, working, uncounted := All(p.workers, IsPicked), All(p.workers, WorksTask), All(p.workers, Uncounted);
    ClaimStepShape(p, s, q);
    ClaimMoves(p, p.claims[s.c], s);
    ClaimCounts(p, s.c, ClaimAfter(p, p.claims[s.c], s));
    ClaimStepKeepsBalance(p, s, q, All(p.claims, CountsQueued), All(p.claims, IsSent), All(p.claims, HoldsTask),
                          All(q.claims, CountsQueued), All(q.claims, IsSent), All(q.claims, HoldsTask), picked, working, uncounted);
  }

  lemma WorkerStepKeepsCounts(p: Pool, s: Step, q: Pool)
    requires CountInv(p) && WorkerStep(s) && Enabled(p, s) && q == ApplyWorker(p, s.w, s) && LossInv(q)
    ensures CountInv(q)
  {
    var waiting, sent, holding := All(p.claims, CountsQueued), All(p.claims, IsSent), All(p.claims, HoldsTask);
    WorkerStepShape(p, s, q);
    WorkerMoves(p, p.workers[s.w], s);
    WorkerCounts(p, s.w, WorkerAfter(p, p.workers[s.w], s));
    WorkerStepKeepsBalance(p, s, q, waiting, sent, holding, All(p.workers, IsPicked), All(p.workers, WorksTask), All(p.workers, Uncounted),
                           All(q.workers, IsPicked), All(q.workers, WorksTask), All(q.workers, Uncounted));
  }

  lemma StepKeepsCounts(p: Pool, s: Step, q: Pool)
    requires CountInv(p) && Enabled(p, s) && q == Apply(p, s)
    ensures CountInv(q)
  {
    StepKeepsLosses(p, s, q);
    if ClaimStep(s) {
      ClaimStepKeepsCounts(p, s, q);
    } else if WorkerStep(s) {
      WorkerStepKeepsCounts(p, s, q);
    }
  }

  // ------------------------------------------------- one place for each task

  predicate ClaimHas(p: Pool, c: nat, t: Task) {
    c < |p.claims| && HoldsTask(p.claims[c]) && p.claims[c].task == t
  }

  predicate WorkerHas(p: Pool, w: nat, t: Task) {
    w < |p.workers| && WorksTask(p.workers[w]) && p.workers[w].task == t
  }

  predicate PlaceIs(p: Pool, t: Task, place: Place) {
    t < |p.places| && p.places[t] == place
  }

  predicate Agree(p: Pool, c: nat, w: nat, t: Task) {
    && (ClaimHas(p, c, t) <==> PlaceIs(p, t, AtClaim(c)))
    && (WorkerHas(p, w, t) <==> PlaceIs(p, t, AtWorker(w)))
    && (t in p.channel <==> PlaceIs(p, t, InChannel))
  }

  predicate NoRepeats(s: seq<Task>) {
    forall i, j | 0 <= i < j < |s| :: s[i] != s[j]
  }

  /** What the claims, the channel and the workers hold is exactly what the places say. */
  ghost predicate PlaceInv(p: Pool) {
    NoRepeats(p.channel) && forall c, w, t :: Agree(p, c, w, t)
  }

  lemma ClaimStepMoves(p: Pool, s: Step, q: Pool, c: nat, w: nat, t: Task)
    requires PlaceInv(p) && ClaimStep(s) && Enabled(p, s) && q == Apply(p, s)
    ensures Agree(q, c, w, t)
  {
    assert Agree(p, c, w, t);
    assert Agree(p, s.c, w, t);
    if HoldsTask(p.claims[s.c]) {
      assert Agree(p, s.c, w, p.claims[s.c].task);
      assert Agree(p, c, w, p.claims[s.c].task);
    }
  }

  lemma ReceiveMoves(p: Pool, s: Step, q: Pool, c: nat, w: nat, t: Task)
    requires PlaceInv(p) && s.Receive? && Enabled(p, s) && q == ApplyWorker(p, s.w, s)
    ensures Agree(q, c, w, t)
  {
    var head := p.channel[0];
    assert Agree(p, c, w, t);
    assert Agree(p, c, s.w, t);
    assert Agree(p, c, w, head);
    assert p.channel == [head] + q.channel;
    assert head !in q.channel;
  }

  lemma WorkerStepMoves(p: Pool, s: Step, q: Pool, c: nat, w: nat, t: Task)
    requires PlaceInv(p) && WorkerStep(s) && !s.Receive? && Enabled(p, s) && q == ApplyWorker(p, s.w, s)
    ensures Agree(q, c, w, t)
  {
    assert Agree(p, c, w, t);
    if WorksTask(p.workers[s.w]) {
      assert Agree(p, c, s.w, p.workers[s.w].task);
      assert Agree(p, c, w, p.workers[s.w].task);
    }
  }

  lemma StepMoves(p: Pool, s: Step, q: Pool, c: nat, w: nat, t: Task)
    requires PlaceInv(p) && Enabled(p, s) && q == Apply(p, s)
    ensures Agree(q, c, w, t)
  {
    if ClaimStep(s) {
      ClaimStepMoves(p, s, q, c, w, t);
    } else if s.Receive? {
      ReceiveMoves(p, s, q, c, w, t);
    } else if WorkerStep(s) {
      WorkerStepMoves(p, s, q, c, w, t);
    } else {
      assert Agree(p, c, w, t);
    }
  }

  lemma StepRepeatsNothing(p: Pool, s: Step, q: Pool)
    requires PlaceInv(p) && Enabled(p, s) && q == Apply(p, s)
    ensures NoRepeats(q.channel)
  {
    if s.Send? {
      assert Agree(p, s.c, 0, p.claims[s.c].task);
      assert p.claims[s.c].task !in p.channel;
    }
  }

  lemma StepKeepsPlaces(p: Pool, s: Step, q: Pool)
    requires PlaceInv(p) && Enabled(p, s) && q == Apply(p, s)
    ensures PlaceInv(q)
  {
    StepRepeatsNothing(p, s, q);
    forall c, w, t ensures Agree(q, c, w, t) {
      StepMoves(p, s, q, c, w, t);
    }
  }

  // ------------------------------------------------------------------- runs

  predicate Start0(p: Pool) {
    && (forall c | 0 <= c < |p.claims| :: p.claims[c] == Fetching)
    && (forall w | 0 <= w < |p.workers| :: p.workers[w] == Idle)
    && p.channel == [] && p.places == []
    && p.queued == p.submitted == p.completed == p.rejected == 0 && p.done == p.lost == 0
    && !p.closed && !p.shut && !p.cancelled && !p.panicked
  }

  ghost predicate Next(p: Pool, q: Pool) {
    exists s :: Enabled(p, s) && q == Apply(p, s)
  }

  ghost predicate Run(states: seq<Pool>) {
    && states != [] && Start0(states[0])
    && forall i | 0 <= i < |states| - 1 :: Next(states[i], states[i + 1])
  }

  lemma StartHolds(p: Pool)
    requires Start0(p)
    ensures CountInv(p) && PlaceInv(p)
  {
    CountBound(p.claims, CountsQueued, |p.claims|);
    CountBound(p.claims, IsSent, |p.claims|);
    CountBound(p.claims, HoldsTask, |p.claims|);
    CountBound(p.workers, IsPicked, |p.workers|);
    CountBound(p.workers, WorksTask, |p.workers|);
    CountBound(p.workers, Uncounted, |p.workers|);
  }

  lemma {:induction false} RunKeepsInv(states: seq<Pool>, n: nat)
    requires Run(states) && n < |states|
    ensures CountInv(states[n]) && PlaceInv(states[n])
    ensures states[n].capacity == states[0].capacity && |states[n].claims| == |states[0].claims| && |states[n].workers| == |states[0].workers|
  {
    if n == 0 {
      StartHolds(states[0]);
    } else {
      RunKeepsInv(states, n - 1);
      assert Next(states[n - 1], states[n - 1 + 1]);
      NextKeepsInv(states[n - 1], states[n]);
    }
  }

  lemma NextKeepsInv(p: Pool, q: Pool)
    requires CountInv(p) && PlaceInv(p) && Next(p, q)
    ensures CountInv(q) && PlaceInv(q)
    ensures q.capacity == p.capacity && |q.claims| == |p.claims| && |q.workers| == |p.workers|
  {
    var s :| Enabled(p, s) && q == Apply(p, s);
    StepKeepsSizes(p, s, q);
    StepKeepsCounts(p, s, q);
    StepKeepsPlaces(p, s, q);
  }

  /** In every reachable state the queued counter is the number of waiting submitters, channel
      entries and tasks picked but not yet counted out, so it is never negative, and it may
      exceed the channel capacity only by claims and workers between two operations. */
  lemma QueuedIsExact(states: seq<Pool>, n: nat)
    requires Run(states) && n < |states|
    ensures var p := states[n];
            && p.queued == All(p.claims, CountsQueued) + |p.channel| + All(p.workers, IsPicked)
            && 0 <= p.queued <= p.capacity + |p.claims| + |p.workers|
  {
    RunKeepsInv(states, n);
    CountBound(states[n].claims, CountsQueued, |states[n].claims|);
    CountBound(states[n].workers, IsPicked, |states[n].workers|);
  }

  /** Backpressure: registered tasks that are neither done nor lost number at most the workers,
      the channel and one message for each claim; and nothing is lost while the session is not
      cancelled, the pool is open and no task has panicked. */
  lemma BackpressureBound(states: seq<Pool>, n: nat)
    requires Run(states) && n < |states|
    ensures var p := states[n];
            && |p.places| - p.done - p.lost <= |p.workers| + p.capacity + |p.claims|
            && (!p.cancelled && !p.closed && !p.panicked ==> p.lost == 0)
  {
    RunKeepsInv(states, n);
    CountBound(states[n].claims, HoldsTask, |states[n].claims|);
    CountBound(states[n].workers, WorksTask, |states[n].workers|);
  }

  /** Every registered task is at exactly one place, the one recorded for it: held by that one
      claim, in one slot of the channel, worked on by that one worker, or over. */
  lemma OnePlace(states: seq<Pool>, n: nat, t: Task)
    requires Run(states) && n < |states| && t < |states[n].places|
    ensures var p := states[n];
            && (forall c :: ClaimHas(p, c, t) <==> p.places[t] == AtClaim(c))
            && (forall w :: WorkerHas(p, w, t) <==> p.places[t] == AtWorker(w))
            && (t in p.channel <==> p.places[t] == InChannel)
            && NoRepeats(p.channel)
  {
    RunKeepsInv(states, n);
    PlacesTell(states[n], t);
  }

  lemma PlacesTell(p: Pool, t: Task)
    requires PlaceInv(p) && t < |p.places|
    ensures forall c :: ClaimHas(p, c, t) <==> p.places[t] == AtClaim(c)
    ensures forall w :: WorkerHas(p, w, t) <==> p.places[t] == AtWorker(w)
    ensures t in p.channel <==> p.places[t] == InChannel
  {
    forall c ensures ClaimHas(p, c, t) <==> p.places[t] == AtClaim(c) {
      assert Agree(p, c, 0, t);
    }
    forall w ensures WorkerHas(p, w, t) <==> p.places[t] == AtWorker(w) {
      assert Agree(p, 0, w, t);
    }
    assert Agree(p, 0, 0, t);
  }

  /** Accepted tasks are in the channel, at a worker or completed; once every worker has stopped,
      which is when Close returns, they are in the channel or completed. */
  lemma AcceptedAreAccounted(states: seq<Pool>, n: nat)
    requires Run(states) && n < |states|
    ensures var p := states[n];
            && p.submitted + All(p.claims, IsSent) == |p.channel| + All(p.workers, Uncounted) + p.completed
            && ((forall w | 0 <= w < |p.workers| :: p.workers[w] == Stopped) ==>
                  p.submitted + All(p.claims, IsSent) == |p.channel| + p.completed)
  {
    RunKeepsInv(states, n);
    CountBound(states[n].workers, Uncounted, |states[n].workers|);
  }

  // ------------------------------------------------------------- progress

  predicate ClaimStepOf(s: Step, c: nat) {
    ClaimStep(s) && s.c == c
  }

  predicate WorkerStepOf(s: Step, w: nat) {
    WorkerStep(s) && s.w == w
  }

  /** A claim can always go on, unless it has left or waits for a slot of a full channel while the
      session lives and the pool is not shut down. */
  lemma ClaimBlocksIff(p: Pool, c: nat)
    requires c < |p.claims| && |p.channel| <= p.capacity
    ensures (forall s | ClaimStepOf(s, c) :: !Enabled(p, s)) <==>
              p.claims[c].Left? || (p.claims[c].Waiting? && |p.channel| == p.capacity && !p.cancelled && !p.shut)
  {
    var s := match p.claims[c]
             case Fetching => Fetch(c)
             case Registered(_) => Load(c)
             case Admitted(_) => Announce(c)
             case Waiting(_) => if |p.channel| < p.capacity then Send(c) else Withdraw(c)
             case Sent => CountSubmitted(c)
             case Withdrawn(_) => Uncount(c)
             case Bounced(_) => Reject(c)
             case Left => Leave(c);
    assert ClaimStepOf(s, c);
  }

  /** A worker can always go on, unless it has stopped or finds the channel empty while the pool is not
      shut down. */
  lemma WorkerBlocksIff(p: Pool, w: nat)
    requires w < |p.workers|
    ensures (forall s | WorkerStepOf(s, w) :: !Enabled(p, s)) <==>
              p.workers[w].Stopped? || (p.workers[w].Idle? && p.channel == [] && !p.shut)
  {
    var s := match p.workers[w]
             case Idle => if p.channel != [] then Receive(w) else Stop(w)
             case Picked(_) => Start(w)
             case Running(_) => Finish(w)
             case Ending => CountCompleted(w)
             case Stopped => Stop(w);
    assert WorkerStepOf(s, w);
  }

  const HasLeft: Claim -> bool := (c: Claim) => c.Left?

  lemma StepCountsRejections(p: Pool, s: Step, q: Pool)
    requires Enabled(p, s) && q == Apply(p, s) && p.rejected <= All(p.claims, HasLeft)
    ensures q.rejected <= All(q.claims, HasLeft)
  {
    if ClaimStep(s) {
      ClaimStepShape(p, s, q);
      CountUpdate(p.claims, HasLeft, s.c, ClaimAfter(p, p.claims[s.c], s), |p.claims|);
    } else if WorkerStep(s) {
      WorkerStepShape(p, s, q);
    }
  }

  /** A claim that was refused leaves: it fetches nothing more, so rejections never outnumber claims. */
  lemma {:induction false} RejectedClaimsLeave(states: seq<Pool>, n: nat)
    requires Run(states) && n < |states|
    ensures states[n].rejected <= All(states[n].claims, HasLeft) <= |states[n].claims|
  {
    CountBound(states[n].claims, HasLeft, |states[n].claims|);
    if n > 0 {
      RejectedClaimsLeave(states, n - 1);
      assert Next(states[n - 1], states[n - 1 + 1]);
      var s :| Enabled(states[n - 1], s) && states[n] == Apply(states[n - 1], s);
      StepCountsRejections(states[n - 1], s, states[n]);
    }
  }

  // -------------------------------------------------- submissions after close

  /** A task that was refused, or is held by a claim that will refuse it. */
  predicate Refused(p: Pool, t: Task) {
    t < |p.places| &&
    match p.places[t]
    case AtClaim(c) => c < |p.claims| && (p.claims[c] == Registered(t) || p.claims[c] == Bounced(t))
    case Over(done) => !done
    case _ => false
  }

  lemma ClosedStepRefuses(p: Pool, s: Step, q: Pool, t: Task)
    requires PlaceInv(p) && p.closed && Enabled(p, s) && q == Apply(p, s)
    requires t < |p.places| ==> Refused(p, t)
    requires t < |q.places|
    ensures q.closed && Refused(q, t)
  {
    if ClaimStep(s) {
      ClosedClaimRefuses(p, s, q, t);
    } else if WorkerStep(s) {
      ClosedWorkerRefuses(p, s, q, t);
    }
  }

  lemma ClosedClaimRefuses(p: Pool, s: Step, q: Pool, t: Task)
    requires PlaceInv(p) && p.closed && ClaimStep(s) && Enabled(p, s) && q == ApplyClaim(p, s.c, s)
    requires t < |p.places| ==> Refused(p, t)
    requires t < |q.places|
    ensures q.closed && Refused(q, t)
  {
    ClaimStepShape(p, s, q);
    assert Agree(p, s.c, 0, t);
    if HoldsTask(p.claims[s.c]) {
      assert Agree(p, s.c, 0, p.claims[s.c].task);
    }
  }

  lemma ClosedWorkerRefuses(p: Pool, s: Step, q: Pool, t: Task)
    requires PlaceInv(p) && p.closed && WorkerStep(s) && Enabled(p, s) && q == ApplyWorker(p, s.w, s)
    requires t < |p.places| && Refused(p, t)
    ensures q.closed && Refused(q, t)
  {
    WorkerStepShape(p, s, q);
    assert Agree(p, 0, s.w, t);
    if s.Receive? {
      assert p.channel[0] in p.channel;
    }
  }

  lemma StepKeepsTasks(p: Pool, s: Step, q: Pool)
    requires Enabled(p, s) && q == Apply(p, s)
    ensures |p.places| <= |q.places| && (p.closed ==> q.closed)
  {
  }

  /** A task whose submission lost to cancellation or shutdown. */
  predicate GivenUp(p: Pool, t: Task) {
    t < |p.places| &&
    match p.places[t]
    case AtClaim(c) => c < |p.claims| && (p.claims[c] == Withdrawn(t) || p.claims[c] == Bounced(t))
    case Over(done) => !done
    case _ => false
  }

  lemma StepKeepsGivenUp(p: Pool, s: Step, q: Pool, t: Task)
    requires PlaceInv(p) && GivenUp(p, t) && Enabled(p, s) && q == Apply(p, s)
    ensures GivenUp(q, t)
  {
    if ClaimStep(s) {
      ClaimStepShape(p, s, q);
      assert Agree(p, s.c, 0, t);
      if HoldsTask(p.claims[s.c]) {
        assert Agree(p, s.c, 0, p.claims[s.c].task);
      }
    } else if WorkerStep(s) {
      WorkerStepShape(p, s, q);
      assert Agree(p, 0, s.w, t);
      assert s.Receive? ==> p.channel[0] in p.channel;
    }
  }

  lemma GivenUpStays(states: seq<Pool>, n: nat, t: Task)
    requires Run(states) && n + 1 < |states| && GivenUp(states[n], t)
    ensures GivenUp(states[n + 1], t)
  {
    RunKeepsInv(states, n);
    assert Next(states[n], states[n + 1]);
    var s :| Enabled(states[n], s) && states[n + 1] == Apply(states[n], s);
    StepKeepsGivenUp(states[n], s, states[n + 1], t);
  }

  lemma {:induction false} GivenUpForever(states: seq<Pool>, i: nat, n: nat, t: Task)
    requires i <= n < |states| && GivenUp(states[i], t)
    requires forall k: nat | i <= k < n :: GivenUp(states[k], t) ==> GivenUp(states[k + 1], t)
    ensures GivenUp(states[n], t)
  {
    StaysTrue((k: nat) => k < |states| && GivenUp(states[k], t), i, n);
  }

  /** A submission that cancellation or shutdown has won is never queued and never run afterwards. */
  lemma WithdrawalIsFinal(states: seq<Pool>, i: nat, n: nat, t: Task)
    requires Run(states) && i <= n < |states| && GivenUp(states[i], t)
    ensures GivenUp(states[n], t)
  {
    forall k: nat | i <= k < n ensures GivenUp(states[k], t) ==> GivenUp(states[k + 1], t) {
      if GivenUp(states[k], t) {
        GivenUpStays(states, k, t);
      }
    }
    GivenUpForever(states, i, n, t);
  }

  predicate LateRefused(p: Pool, t: Task) {
    p.closed && (t < |p.places| ==> Refused(p, t))
  }

  lemma LateStays(states: seq<Pool>, n: nat, t: Task)
    requires Run(states) && n + 1 < |states| && LateRefused(states[n], t)
    ensures LateRefused(states[n + 1], t)
  {
    var p, q := states[n], states[n + 1];
    RunKeepsInv(states, n);
    assert Next(p, q);
    var s :| Enabled(p, s) && q == Apply(p, s);
    StepKeepsTasks(p, s, q);
    if t < |q.places| {
      ClosedStepRefuses(p, s, q, t);
    }
  }

  lemma {:induction false} LateForever(states: seq<Pool>, i: nat, n: nat, t: Task)
    requires i <= n < |states| && LateRefused(states[i], t)
    requires forall k: nat | i <= k < n :: LateRefused(states[k], t) ==> LateRefused(states[k + 1], t)
    ensures LateRefused(states[n], t)
  {
    StaysTrue((k: nat) => k < |states| && LateRefused(states[k], t), i, n);
  }

  /** A task that a claim registers after the pool was closed is never queued and never run: it is
      refused, in every continuation. */
  lemma LateTasksAreRefused(states: seq<Pool>, i: nat, n: nat, t: Task)
    requires Run(states) && i <= n < |states| && states[i].closed
    requires |states[i].places| <= t
    ensures LateRefused(states[n], t)
  {
    forall k: nat | i <= k < n ensures LateRefused(states[k], t) ==> LateRefused(states[k + 1], t) {
      if LateRefused(states[k], t) {
        LateStays(states, k, t);
      }
    }
    LateForever(states, i, n, t);
  }

  // ------------------------------------------------------ the exact bound

  function Final(states: seq<Pool>): Pool
    requires states != []
  {
    states[|states| - 1]
  }

  ghost predicate RunFrom(p: Pool, states: seq<Pool>) {
    Run(states) && states[0] == p
  }

  lemma StepRun(p: Pool, states: seq<Pool>, s: Step) returns (longer: seq<Pool>)
    requires RunFrom(p, states) && Enabled(Final(states), s)
    ensures RunFrom(p, longer) && Final(longer) == Apply(Final(states), s)
  {
    var q := Apply(Final(states), s);
    longer := states + [q];
    forall i | 0 <= i < |longer| - 1 ensures Next(longer[i], longer[i + 1]) {
      if i < |states| - 1 {
        assert Next(states[i], states[i + 1]);
      }
    }
  }

  /** An open pool reached from `p`: `picked` workers hold a received task that is still counted,
      `sent` tasks fill the channel, and the first `waiting` claims wait for a slot. */
  ghost predicate Loaded(p: Pool, q: Pool, picked: nat, sent: nat, waiting: nat) {
    && q.capacity == p.capacity && |q.claims| == |p.claims| && |q.workers| == |p.workers|
    && !q.closed && |q.channel| == sent && q.queued == picked + sent + waiting
    && (forall c | waiting <= c < |q.claims| :: q.claims[c] == Fetching)
    && (forall w | picked <= w < |q.workers| :: q.workers[w] == Idle)
  }

  /** A claim whose turn it is announces its next task. */
  lemma OneMoreWaits(p: Pool, states: seq<Pool>, picked: nat, sent: nat, waiting: nat) returns (longer: seq<Pool>)
    requires RunFrom(p, states) && Loaded(p, Final(states), picked, sent, waiting) && waiting < |p.claims|
    ensures RunFrom(p, longer) && Loaded(p, Final(longer), picked, sent, waiting + 1)
    ensures Final(longer).claims[waiting].Waiting?
  {
    longer := StepRun(p, states, Fetch(waiting));
    longer := StepRun(p, longer, Load(waiting));
    longer := StepRun(p, longer, Announce(waiting));
  }

  lemma OneMoreSent(p: Pool, states: seq<Pool>, picked: nat, sent: nat) returns (longer: seq<Pool>)
    requires RunFrom(p, states) && Loaded(p, Final(states), picked, sent, 0) && p.claims != [] && sent < p.capacity
    ensures RunFrom(p, longer) && Loaded(p, Final(longer), picked, sent + 1, 0)
  {
    longer := OneMoreWaits(p, states, picked, sent, 0);
    longer := StepRun(p, longer, Send(0));
    longer := StepRun(p, longer, CountSubmitted(0));
  }

  lemma OneMorePicked(p: Pool, states: seq<Pool>, picked: nat) returns (longer: seq<Pool>)
    requires RunFrom(p, states) && Loaded(p, Final(states), picked, 0, 0) && p.claims != []
    requires p.capacity > 0 && picked < |p.workers|
    ensures RunFrom(p, longer) && Loaded(p, Final(longer), picked + 1, 0, 0)
  {
    longer := OneMoreSent(p, states, picked, 0);
    longer := StepRun(p, longer, Receive(picked));
  }

  /** Every load within the sizes of the pool is reached. */
  lemma {:induction false} LoadReached(p: Pool, picked: nat, sent: nat, waiting: nat) returns (states: seq<Pool>)
    requires Start0(p) && p.claims != [] && (p.capacity == 0 ==> picked == 0)
    requires picked <= |p.workers| && sent <= p.capacity && waiting <= |p.claims|
    ensures RunFrom(p, states) && Loaded(p, Final(states), picked, sent, waiting)
    decreases picked + sent + waiting
  {
    if waiting > 0 {
      states := LoadReached(p, picked, sent, waiting - 1);
      states := OneMoreWaits(p, states, picked, sent, waiting - 1);
    } else if sent > 0 {
      states := LoadReached(p, picked, sent - 1, 0);
      states := OneMoreSent(p, states, picked, sent - 1);
    } else if picked > 0 {
      states := LoadReached(p, picked - 1, 0, 0);
      states := OneMorePicked(p, states, picked - 1);
    } else {
      states := [p];
    }
  }

  /** The queued counter of a pool never exceeds `bound`. */
  ghost predicate NeverQueuesOver(p: Pool, bound: int) {
    forall states: seq<Pool>, n: nat | RunFrom(p, states) && n < |states| :: states[n].queued <= bound
  }

  predicate Unused(p: Pool) {
    && p.claims == [] && p.channel == [] && p.queued == 0
    && forall w | 0 <= w < |p.workers| :: p.workers[w] == Idle || p.workers[w] == Stopped
  }

  lemma UnusedStep(p: Pool, s: Step, q: Pool)
    requires Unused(p) && Enabled(p, s) && q == Apply(p, s)
    ensures Unused(q)
  {
    if WorkerStep(s) {
      assert p.workers[s.w] == Idle;
    }
  }

  /** Without claims nothing is ever queued. */
  lemma {:induction false} NothingWithoutClaims(states: seq<Pool>, n: nat)
    requires Run(states) && n < |states| && states[0].claims == []
    ensures Unused(states[n])
  {
    if n > 0 {
      NothingWithoutClaims(states, n - 1);
      assert Next(states[n - 1], states[n - 1 + 1]);
      var s :| Enabled(states[n - 1], s) && states[n] == Apply(states[n - 1], s);
      UnusedStep(states[n - 1], s, states[n]);
    }
  }

  /** The usage ratio stays at most one in every run of a pool if and only if nobody submits to
      it: with one claim or more, whatever the capacity and the number of workers, some run
      fills the channel and announces one task more. */
  lemma RatioBoundedIffNoClaims(p: Pool)
    requires Start0(p)
    ensures NeverQueuesOver(p, p.capacity) <==> p.claims == []
  {
    if p.claims == [] {
      forall states: seq<Pool>, n: nat | RunFrom(p, states) && n < |states| ensures states[n].queued <= p.capacity {
        NothingWithoutClaims(states, n);
      }
    } else {
      var states := LoadReached(p, 0, p.capacity, 1);
      assert states[|states| - 1].queued > p.capacity;
    }
  }

  /** The bound of `QueuedIsExact` is the least one: a pool with a channel and at least one claim
      never queues more than `bound` exactly if `bound` is at least capacity plus claims plus
      workers. */
  lemma QueuedBoundIsTight(p: Pool, bound: int)
    requires Start0(p) && p.claims != [] && p.capacity > 0
    ensures NeverQueuesOver(p, bound) <==> p.capacity + |p.claims| + |p.workers| <= bound
  {
    if p.capacity + |p.claims| + |p.workers| <= bound {
      forall states: seq<Pool>, n: nat | RunFrom(p, states) && n < |states| ensures states[n].queued <= bound {
        QueuedIsExact(states, n);
        RunKeepsInv(states, n);
      }
    } else {
      var states := LoadReached(p, |p.workers|, p.capacity, |p.claims|);
      assert states[|states| - 1].queued > bound;
    }
  }
}
