/** The Redis Stream consumer: pending entries are drained before new ones are read. */
module RedisStream {
  import opened Prelude

  type Id = nat

  /** An entry of this consumer's pending list: how often it has been delivered. */
  datatype Entry = Entry(id: Id, decodable: bool, deliveries: nat)

  datatype Message = Message(id: Id, decodable: bool)

  /** A Redis call succeeds, fails without effect, or takes effect and loses its reply. */
  datatype Fault = Fine | Refused | ReplyLost

  datatype Act =
    | Handled(id: Id, attempt: nat, ok: bool)
    | DeadLettered(id: Id, attempt: nat)
    | Acked(id: Id)

  datatype ConsumeError = RedisError | Undecodable(id: Id)

  /** `handler(id, attempt)` is whether the handler succeeds on that delivery. */
  datatype Config = Config(count: int, maxAttempts: int, deadLetters: bool, handler: (Id, nat) -> bool)
  {
    predicate Exhausted(attempt: nat) {
      !(maxAttempts <= 0 || attempt < maxAttempts || !deadLetters)
    }

    /** The delivery ends the entry: it succeeded or was the last one allowed. */
    predicate Settles(id: Id, attempt: nat) {
      handler(id, attempt) || Exhausted(attempt)
    }

    /** COUNT is left out of the command when it is not positive. */
    function Batch(available: nat): nat {
      if count <= 0 || available <= count then available else count
    }
  }

  // ------------------------------------------------------------ pending list

  predicate UniqueIds(p: seq<Entry>) {
    forall i, j | 0 <= i < j < |p| :: p[i].id != p[j].id
  }

  ghost predicate Holds(p: seq<Entry>, id: Id) {
    exists i | 0 <= i < |p| :: p[i].id == id
  }

  function Delivered(e: Entry): Entry {
    e.(deliveries := e.deliveries + 1)
  }

  /** The first `n` entries delivered once more. */
  function Redeliver(p: seq<Entry>, n: nat): (q: seq<Entry>)
    requires n <= |p|
    ensures |q| == |p|
  {
    seq(|p|, i requires 0 <= i < |p| => if i < n then Delivered(p[i]) else p[i])
  }

  /** What is left of the first `n` entries after one delivery of each. */
  function Kept(cfg: Config, p: seq<Entry>, n: nat): seq<Entry>
    requires n <= |p|
  {
    if n == 0 then []
    else
      var e, sofar := Delivered(p[n - 1]), Kept(cfg, p, n - 1);
      if cfg.Settles(e.id, e.deliveries) then sofar else sofar + [e]
  }

  function Without(p: seq<Entry>, id: Id): seq<Entry> {
    if p == [] then []
    else if p[0].id == id then Without(p[1..], id)
    else [p[0]] + Without(p[1..], id)
  }

  /** XPENDING for one entry, as a one-based attempt. */
  function AttemptOf(p: seq<Entry>, id: Id): nat {
    if p == [] then 1
    else if p[0].id == id then (if p[0].deliveries == 0 then 1 else p[0].deliveries)
    else AttemptOf(p[1..], id)
  }

  /** The attempt number is the delivery count that Redis tells, and at least one. */
  lemma {:induction false} AttemptMeans(p: seq<Entry>, i: nat)
    requires i < |p| && forall j | 0 <= j < i :: p[j].id != p[i].id
    ensures AttemptOf(p, p[i].id) == Max(1, p[i].deliveries)
  {
    if i > 0 {
      assert p[1..][i - 1] == p[i];
      assert forall j | 0 <= j < i - 1 :: p[1..][j] == p[j + 1];
      AttemptMeans(p[1..], i - 1);
    }
  }

  /** An entry that Redis does not list counts as a first attempt. */
  lemma {:induction false} AttemptAbsent(p: seq<Entry>, id: Id)
    requires forall i | 0 <= i < |p| :: p[i].id != id
    ensures AttemptOf(p, id) == 1
  {
    if p != [] {
      AttemptAbsent(p[1..], id);
    }
  }

  lemma {:induction false} WithoutAbsent(p: seq<Entry>, id: Id)
    requires forall i | 0 <= i < |p| :: p[i].id != id
    ensures Without(p, id) == p
  {
    if p != [] {
      WithoutAbsent(p[1..], id);
    }
  }

  lemma {:induction false} WithoutAt(a: seq<Entry>, e: Entry, b: seq<Entry>)
    requires UniqueIds(a + [e] + b)
    ensures Without(a + [e] + b, e.id) == a + b
  {
    var p := a + [e] + b;
    if a == [] {
      assert p[1..] == b;
      forall i | 0 <= i < |b| ensures b[i].id != e.id {
        assert p[i + 1] == b[i];
      }
      WithoutAbsent(b, e.id);
    } else {
      assert p[1..] == a[1..] + [e] + b;
      assert p[0].id != e.id by { assert p[|a|] == e; }
      UniqueTail(p);
      WithoutAt(a[1..], e, b);
    }
  }

  lemma UniqueTail(p: seq<Entry>)
    requires UniqueIds(p) && p != []
    ensures UniqueIds(p[1..])
  {
  }

  lemma {:induction false} AttemptAt(a: seq<Entry>, e: Entry, b: seq<Entry>)
    requires UniqueIds(a + [e] + b) && e.deliveries > 0
    ensures AttemptOf(a + [e] + b, e.id) == e.deliveries
  {
    var p := a + [e] + b;
    if a != [] {
      assert p[1..] == a[1..] + [e] + b;
      assert p[0].id != e.id by { assert p[|a|] == e; }
      UniqueTail(p);
      AttemptAt(a[1..], e, b);
    }
  }

  lemma UniqueWithout(a: seq<Entry>, e: Entry, b: seq<Entry>)
    requires UniqueIds(a + [e] + b)
    ensures UniqueIds(a + b)
  {
    var p, q := a + [e] + b, a + b;
    forall i, j | 0 <= i < j < |q| ensures q[i].id != q[j].id {
      var k, l := if i < |a| then i else i + 1, if j < |a| then j else j + 1;
      assert q[i] == p[k] && q[j] == p[l];
    }
  }

  // ------------------------------------------------- how long draining takes

  /** Every entry decodes and has an attempt still to come that settles it. */
  ghost predicate Due(cfg: Config, deadline: Id -> nat, p: seq<Entry>) {
    forall i | 0 <= i < |p| ::
      p[i].decodable && p[i].deliveries < deadline(p[i].id) && cfg.Settles(p[i].id, deadline(p[i].id))
  }

  /** Deliveries until every deadline. */
  function Work(deadline: Id -> nat, p: seq<Entry>, n: nat): int
    requires n <= |p|
  {
    if n == 0 then 0 else Work(deadline, p, n - 1) + deadline(p[n - 1].id) - p[n - 1].deliveries
  }

  lemma {:induction false} WorkSplits(deadline: Id -> nat, a: seq<Entry>, b: seq<Entry>, n: nat)
    requires n <= |b|
    ensures Work(deadline, a + b, |a| + n) == Work(deadline, a, |a|) + Work(deadline, b, n)
  {
    if n == 0 {
      WorkPrefix(deadline, a, a + b, |a|);
    } else {
      WorkSplits(deadline, a, b, n - 1);
      assert (a + b)[|a| + n - 1] == b[n - 1];
    }
  }

  lemma {:induction false} WorkPrefix(deadline: Id -> nat, a: seq<Entry>, b: seq<Entry>, n: nat)
    requires n <= |a| <= |b| && forall i | 0 <= i < n :: a[i] == b[i]
    ensures Work(deadline, a, n) == Work(deadline, b, n)
  {
    if n > 0 {
      WorkPrefix(deadline, a, b, n - 1);
    }
  }

  lemma {:induction false} WorkLeft(cfg: Config, deadline: Id -> nat, p: seq<Entry>, n: nat)
    requires Due(cfg, deadline, p) && n <= |p|
    ensures n <= Work(deadline, p, n)
  {
    if n > 0 {
      WorkLeft(cfg, deadline, p, n - 1);
    }
  }

  /** Every delivery of a round that leaves an entry behind brings it one attempt closer. */
  lemma {:induction false} RoundWorks(cfg: Config, deadline: Id -> nat, p: seq<Entry>, n: nat)
    requires Due(cfg, deadline, p) && n <= |p|
    ensures Due(cfg, deadline, Kept(cfg, p, n))
    ensures Work(deadline, Kept(cfg, p, n), |Kept(cfg, p, n)|) + n <= Work(deadline, p, n)
  {
    if n > 0 {
      RoundWorks(cfg, deadline, p, n - 1);
      var kept, e := Kept(cfg, p, n - 1), Delivered(p[n - 1]);
      if !cfg.Settles(e.id, e.deliveries) {
        WorkPrefix(deadline, kept, kept + [e], |kept|);
      }
    }
  }

  lemma DueParts(cfg: Config, deadline: Id -> nat, p: seq<Entry>, n: nat, a: seq<Entry>)
    requires Due(cfg, deadline, p) && n <= |p| && Due(cfg, deadline, a)
    ensures Due(cfg, deadline, a + p[n..])
  {
  }

  lemma WorkParts(deadline: Id -> nat, p: seq<Entry>, n: nat)
    requires n <= |p|
    ensures Work(deadline, p, |p|) == Work(deadline, p, n) + Work(deadline, p[n..], |p| - n)
  {
    WorkSplits(deadline, p[..n], p[n..], |p| - n);
    WorkPrefix(deadline, p[..n], p, n);
    assert p == p[..n] + p[n..];
  }

  lemma {:induction false} RoundDue(cfg: Config, deadline: Id -> nat, p: seq<Entry>, n: nat, q: seq<Entry>)
    requires Due(cfg, deadline, p) && n <= |p| && q == Kept(cfg, p, n) + p[n..]
    ensures Due(cfg, deadline, q)
    ensures Work(deadline, q, |q|) + n <= Work(deadline, p, |p|)
  {
    RoundWorks(cfg, deadline, p, n);
    DueParts(cfg, deadline, p, n, Kept(cfg, p, n));
    WorkSplits(deadline, Kept(cfg, p, n), p[n..], |p| - n);
    WorkParts(deadline, p, n);
  }

  /** An entry that does not decode never reaches the handler, the dead letter or the acknowledgement. */
  ghost predicate EventuallySettles(cfg: Config, e: Entry) {
    e.decodable && exists attempt: nat :: e.deliveries < attempt && cfg.Settles(e.id, attempt)
  }

  ghost function Deadline(cfg: Config, p: seq<Entry>, id: Id): nat {
    if exists i, attempt: nat :: 0 <= i < |p| && p[i].id == id && p[i].deliveries < attempt && cfg.Settles(id, attempt)
    then var i, attempt: nat :| 0 <= i < |p| && p[i].id == id && p[i].deliveries < attempt && cfg.Settles(id, attempt); attempt
    else 0
  }

  /** Some pending entry does not decode, or settles at no attempt still to come. */
  ghost predicate Stuck(cfg: Config, p: seq<Entry>) {
    exists k | 0 <= k < |p| :: !EventuallySettles(cfg, p[k])
  }

  predicate Decodes(p: seq<Entry>, n: nat)
    requires n <= |p|
  {
    forall i | 0 <= i < n :: p[i].decodable
  }

  /** A pending list without such an entry has a deadline for each of its entries. */
  lemma DeadlinesExist(cfg: Config, p: seq<Entry>)
    requires UniqueIds(p) && !Stuck(cfg, p)
    ensures Due(cfg, id => Deadline(cfg, p, id), p)
  {
    forall i | 0 <= i < |p|
      ensures p[i].decodable && p[i].deliveries < Deadline(cfg, p, p[i].id) && cfg.Settles(p[i].id, Deadline(cfg, p, p[i].id))
    {
      assert EventuallySettles(cfg, p[i]);
      var attempt: nat :| p[i].deliveries < attempt && cfg.Settles(p[i].id, attempt);
    }
  }

  /** With an attempt limit and a dead-letter stream, entries that do not decode are the only
      ones that stick. */
  lemma LimitUnsticks(cfg: Config, p: seq<Entry>)
    requires cfg.maxAttempts > 0 && cfg.deadLetters
    ensures Stuck(cfg, p) <==> !Decodes(p, |p|)
  {
    forall i | 0 <= i < |p| ensures EventuallySettles(cfg, p[i]) <==> p[i].decodable {
      assert cfg.Settles(p[i].id, p[i].deliveries + cfg.maxAttempts);
    }
  }

  /** The limit is on deliveries: a failed one is dead-lettered and acknowledged exactly if there are a
      limit and a dead-letter stream and as many deliveries as the limit allows. */
  lemma FailedDeliveryEnds(cfg: Config, e: Entry)
    requires !cfg.handler(e.id, e.deliveries)
    ensures Acts(cfg, e) ==
              if cfg.maxAttempts > 0 && cfg.deadLetters && e.deliveries >= cfg.maxAttempts
              then [Handled(e.id, e.deliveries, false), DeadLettered(e.id, e.deliveries), Acked(e.id)]
              else [Handled(e.id, e.deliveries, false)]
  {
  }

  lemma GoodDeliveryEnds(cfg: Config, e: Entry)
    requires cfg.handler(e.id, e.deliveries)
    ensures Acts(cfg, e) == [Handled(e.id, e.deliveries, true), Acked(e.id)]
  {
  }

  /** With a limit and a dead-letter stream the limit is a deadline for every entry that decodes and has
      attempts left. */
  lemma LimitIsDeadline(cfg: Config, p: seq<Entry>)
    requires cfg.maxAttempts > 0 && cfg.deadLetters
    requires forall i | 0 <= i < |p| :: p[i].decodable && p[i].deliveries < cfg.maxAttempts
    ensures Due(cfg, id => cfg.maxAttempts, p)
  {
  }

  /** The attempts that the limit leaves to the first `n` entries. */
  function AttemptsLeft(maxAttempts: nat, p: seq<Entry>, n: nat): int
    requires n <= |p|
  {
    if n == 0 then 0 else AttemptsLeft(maxAttempts, p, n - 1) + maxAttempts - p[n - 1].deliveries
  }

  lemma {:induction false} WorkIsAttemptsLeft(maxAttempts: nat, p: seq<Entry>, n: nat)
    requires n <= |p|
    ensures Work(id => maxAttempts, p, n) == AttemptsLeft(maxAttempts, p, n)
  {
    if n > 0 {
      WorkIsAttemptsLeft(maxAttempts, p, n - 1);
    }
  }

  /** Then the pending list is empty after as many batches as attempts are left, whatever the handler does. */
  lemma {:induction false} DrainsWithinAttemptsLeft(cfg: Config, p: seq<Entry>, n: nat)
    requires cfg.maxAttempts > 0 && cfg.deadLetters
    requires forall i | 0 <= i < |p| :: p[i].decodable && p[i].deliveries < cfg.maxAttempts
    requires AttemptsLeft(cfg.maxAttempts, p, |p|) <= n
    ensures Emptied(cfg, p, n)
  {
    LimitIsDeadline(cfg, p);
    WorkIsAttemptsLeft(cfg.maxAttempts, p, |p|);
    DrainsWithinWork(cfg, id => cfg.maxAttempts, p, n);
  }

  /** Without them, an entry sticks exactly if it does not decode or its handler fails at every
      attempt still to come. */
  lemma NoLimitSticks(cfg: Config, p: seq<Entry>)
    requires cfg.maxAttempts <= 0 || !cfg.deadLetters
    ensures Stuck(cfg, p) <==>
              exists k | 0 <= k < |p| :: !p[k].decodable || forall attempt: nat | p[k].deliveries < attempt :: !cfg.handler(p[k].id, attempt)
  {
    forall e: Entry
      ensures EventuallySettles(cfg, e) <==> e.decodable && exists attempt: nat :: e.deliveries < attempt && cfg.handler(e.id, attempt)
    {
      HandlerSettles(cfg, e);
    }
  }

  lemma HandlerSettles(cfg: Config, e: Entry)
    requires cfg.maxAttempts <= 0 || !cfg.deadLetters
    ensures EventuallySettles(cfg, e) <==> e.decodable && exists attempt: nat :: e.deliveries < attempt && cfg.handler(e.id, attempt)
  {
    forall attempt: nat ensures cfg.Settles(e.id, attempt) <==> cfg.handler(e.id, attempt) {
    }
  }

  /** An entry that never settles survives every round that gets past it. */
  lemma {:induction false} StuckSurvives(cfg: Config, p: seq<Entry>, n: nat, k: nat)
    requires k < |p| && n <= |p| && Decodes(p, n) && !EventuallySettles(cfg, p[k])
    ensures Stuck(cfg, Kept(cfg, p, n) + p[n..])
  {
    var q := Kept(cfg, p, n) + p[n..];
    if k >= n {
      assert q[|Kept(cfg, p, n)| + k - n] == p[k];
    } else {
      var j := StuckKept(cfg, p, n, k);
      assert q[j] == Kept(cfg, p, n)[j];
    }
  }

  lemma {:induction false} StuckKept(cfg: Config, p: seq<Entry>, n: nat, k: nat) returns (j: nat)
    requires k < n <= |p| && p[k].decodable && !EventuallySettles(cfg, p[k])
    ensures j < |Kept(cfg, p, n)| && Kept(cfg, p, n)[j] == Delivered(p[k]) && !EventuallySettles(cfg, Delivered(p[k]))
  {
    if k < n - 1 {
      j := StuckKept(cfg, p, n - 1, k);
    } else {
      j := |Kept(cfg, p, n - 1)|;
      assert !cfg.Settles(p[k].id, p[k].deliveries + 1);
      var e := Delivered(p[k]);
      forall attempt: nat | e.deliveries < attempt ensures !cfg.Settles(e.id, attempt) {
        assert p[k].deliveries < attempt;
      }
    }
  }

  lemma {:induction false} RoundProgress(cfg: Config, deadline: Id -> nat, p: seq<Entry>, n: nat, q: seq<Entry>)
    requires n <= |p| && Decodes(p, n) && q == Kept(cfg, p, n) + p[n..]
    ensures Due(cfg, deadline, p) ==> Due(cfg, deadline, q) && Work(deadline, q, |q|) + n <= Work(deadline, p, |p|)
    ensures Stuck(cfg, p) ==> Stuck(cfg, q)
    ensures n == 0 ==> q == p
  {
    if Due(cfg, deadline, p) {
      RoundDue(cfg, deadline, p, n, q);
    }
    if Stuck(cfg, p) {
      var k :| 0 <= k < |p| && !EventuallySettles(cfg, p[k]);
      StuckSurvives(cfg, p, n, k);
    }
  }

  // --------------------------------------------------- draining without faults

  /** The pending list after one history batch, or nothing if an entry of it does not decode. */
  function Round(cfg: Config, p: seq<Entry>): Option<seq<Entry>> {
    var n := cfg.Batch(|p|);
    if Decodes(p, n) then Some(Kept(cfg, p, n) + p[n..]) else None
  }

  function Rounds(cfg: Config, p: seq<Entry>, n: nat): Option<seq<Entry>> {
    if n == 0 then Some(p)
    else
      match Rounds(cfg, p, n - 1)
      case None => None
      case Some(q) => Round(cfg, q)
  }

  predicate Emptied(cfg: Config, p: seq<Entry>, n: nat) {
    Rounds(cfg, p, n) == Some([])
  }

  /** Some number of batches empties the pending list. */
  ghost predicate Drains(cfg: Config, p: seq<Entry>) {
    exists n: nat :: Emptied(cfg, p, n)
  }

  lemma {:induction false} RoundsStayStuck(cfg: Config, p: seq<Entry>, n: nat)
    requires Stuck(cfg, p)
    ensures Rounds(cfg, p, n).Some? ==> Stuck(cfg, Rounds(cfg, p, n).value)
  {
    if n > 0 {
      RoundsStayStuck(cfg, p, n - 1);
      if Rounds(cfg, p, n).Some? {
        var q := Rounds(cfg, p, n - 1).value;
        RoundProgress(cfg, id => 0, q, cfg.Batch(|q|), Rounds(cfg, p, n).value);
      }
    }
  }

  lemma {:induction false} RoundsWork(cfg: Config, deadline: Id -> nat, p: seq<Entry>, n: nat)
    requires Due(cfg, deadline, p)
    ensures Rounds(cfg, p, n).Some?
    ensures var q := Rounds(cfg, p, n).value; Due(cfg, deadline, q) && (q != [] ==> Work(deadline, q, |q|) + n <= Work(deadline, p, |p|))
  {
    if n > 0 {
      RoundsWork(cfg, deadline, p, n - 1);
      var q := Rounds(cfg, p, n - 1).value;
      RoundProgress(cfg, deadline, q, cfg.Batch(|q|), Kept(cfg, q, cfg.Batch(|q|)) + q[cfg.Batch(|q|)..]);
    }
  }

  lemma {:induction false} RoundsStop(cfg: Config, p: seq<Entry>, i: nat, n: nat)
    requires i < n && Rounds(cfg, p, i).Some? && Round(cfg, Rounds(cfg, p, i).value).None?
    ensures Rounds(cfg, p, n).None?
  {
    if i < n - 1 {
      RoundsStop(cfg, p, i, n - 1);
    }
  }

  /** After `i` batches: not emptied before and now `q`, or emptied by an earlier one. */
  ghost predicate Progress(cfg: Config, p: seq<Entry>, i: nat, emptied: bool, q: seq<Entry>) {
    if emptied then exists k: nat | k < i :: Emptied(cfg, p, k)
    else Rounds(cfg, p, i) == Some(q) && forall k: nat | k < i :: !Emptied(cfg, p, k)
  }

  lemma ProgressOn(cfg: Config, p: seq<Entry>, i: nat, emptied: bool, q: seq<Entry>)
    requires Progress(cfg, p, i, emptied, q) && q != [] && Round(cfg, q).Some?
    ensures Progress(cfg, p, i + 1, emptied, Round(cfg, q).value)
  {
    if emptied {
      var k: nat :| k < i && Emptied(cfg, p, k);
    } else {
      assert !Emptied(cfg, p, i) && Rounds(cfg, p, i + 1) == Round(cfg, q);
    }
  }

  lemma ProgressDone(cfg: Config, p: seq<Entry>, i: nat, emptied: bool)
    requires Progress(cfg, p, i, emptied, [])
    ensures exists k: nat | k < i + 1 :: Emptied(cfg, p, k)
  {
    assert !emptied ==> Emptied(cfg, p, i);
  }

  /** One of the first batches meets an entry that does not decode before the list is empty. */
  ghost predicate Blocked(cfg: Config, p: seq<Entry>, rounds: nat) {
    exists k: nat | k < rounds :: Rounds(cfg, p, k).Some? && Round(cfg, Rounds(cfg, p, k).value).None?
  }

  /** A batch that does not decode settles whether the list is ever emptied. */
  lemma ProgressStops(cfg: Config, p: seq<Entry>, i: nat, emptied: bool, q: seq<Entry>, rounds: nat)
    requires Progress(cfg, p, i, emptied, q) && i < rounds && Round(cfg, q).None?
    ensures emptied <==> exists k: nat | k < rounds :: Emptied(cfg, p, k)
    ensures !emptied ==> Blocked(cfg, p, rounds)
  {
    if !emptied {
      forall k: nat | k < rounds ensures !Emptied(cfg, p, k) {
        if i < k {
          RoundsStop(cfg, p, i, k);
        }
      }
    }
  }

  /** Within as many batches as there is outstanding work the list is empty. */
  lemma {:induction false} DrainsWithinWork(cfg: Config, deadline: Id -> nat, p: seq<Entry>, n: nat)
    requires Due(cfg, deadline, p) && Work(deadline, p, |p|) <= n
    ensures Emptied(cfg, p, n)
  {
    RoundsWork(cfg, deadline, p, n);
    var q := Rounds(cfg, p, n).value;
    WorkLeft(cfg, deadline, q, |q|);
  }

  /** Without Redis errors draining empties the pending list if and only if every entry decodes
      and eventually settles. */
  lemma DrainsIffNotStuck(cfg: Config, p: seq<Entry>)
    requires UniqueIds(p)
    ensures Drains(cfg, p) <==> !Stuck(cfg, p)
  {
    if Stuck(cfg, p) {
      forall n: nat ensures !Emptied(cfg, p, n) {
        RoundsStayStuck(cfg, p, n);
      }
    } else {
      var deadline: Id -> nat := id => Deadline(cfg, p, id);
      DeadlinesExist(cfg, p);
      WorkLeft(cfg, deadline, p, |p|);
      DrainsWithinWork(cfg, deadline, p, Work(deadline, p, |p|));
    }
  }

  /** One entry that does not decode blocks the list under every limit and every handler. */
  lemma PoisonBlocks(cfg: Config, p: seq<Entry>, k: nat)
    requires UniqueIds(p) && k < |p| && !p[k].decodable
    ensures !Drains(cfg, p)
  {
    assert !EventuallySettles(cfg, p[k]);
    DrainsIffNotStuck(cfg, p);
  }

  // -------------------------------------------------------------------- log

  /** Every acknowledgement comes after a successful delivery or a dead letter of its entry. */
  ghost predicate Justified(log: seq<Act>) {
    forall j | 0 <= j < |log| && log[j].Acked? :: exists i | 0 <= i < j :: Settled(log[i], log[j].id)
  }

  predicate Settled(act: Act, id: Id) {
    match act
    case Handled(other, _, ok) => other == id && ok
    case DeadLettered(other, _) => other == id
    case Acked(_) => false
  }

  ghost predicate Acknowledged(log: seq<Act>, id: Id) {
    Acked(id) in log
  }

  lemma JustifiedMore(log: seq<Act>, act: Act)
    requires Justified(log)
    requires act.Acked? ==> exists i | 0 <= i < |log| :: Settled(log[i], act.id)
    ensures Justified(log + [act])
  {
    var more := log + [act];
    forall j | 0 <= j < |more| && more[j].Acked? ensures exists i | 0 <= i < j :: Settled(more[i], more[j].id) {
      if j < |log| {
        var i :| 0 <= i < j && Settled(log[i], log[j].id);
        assert Settled(more[i], more[j].id);
      } else {
        var i :| 0 <= i < |log| && Settled(log[i], act.id);
        assert Settled(more[i], more[j].id);
      }
    }
  }

  // --------------------------------------------------------------- consumer

  function NewEntries(stream: seq<Message>): (p: seq<Entry>)
    ensures |p| == |stream|
  {
    seq(|stream|, i requires 0 <= i < |stream| => Entry(stream[i].id, stream[i].decodable, 0))
  }

  /** Still to be delivered, pending, or acknowledged. */
  ghost predicate Known(p: seq<Entry>, stream: seq<Message>, log: seq<Act>, id: Id) {
    Holds(p + NewEntries(stream), id) || Acknowledged(log, id)
  }

  ghost function KnownIds(p: seq<Entry>, stream: seq<Message>, log: seq<Act>): iset<Id> {
    iset id | Known(p, stream, log, id)
  }

  ghost predicate SameIds(p: seq<Entry>, q: seq<Entry>) {
    |p| == |q| && forall i | 0 <= i < |p| :: p[i].id == q[i].id
  }

  lemma SameIdsKnown(p: seq<Entry>, q: seq<Entry>, s: seq<Message>, t: seq<Message>, log: seq<Act>)
    requires SameIds(p + NewEntries(s), q + NewEntries(t))
    ensures UniqueIds(p + NewEntries(s)) ==> UniqueIds(q + NewEntries(t))
    ensures KnownIds(p, s, log) == KnownIds(q, t, log)
  {
    var x, y := p + NewEntries(s), q + NewEntries(t);
    assert forall i | 0 <= i < |x| :: x[i].id == y[i].id;
    forall id ensures Holds(x, id) <==> Holds(y, id) {
    }
  }

  /** Acknowledging one entry: nothing else moves, and the entry stays accounted for. */
  lemma {:induction false} AckMoves(a: seq<Entry>, e: Entry, b: seq<Entry>, stream: seq<Message>, log: seq<Act>)
    requires UniqueIds((a + [e] + b) + NewEntries(stream))
    ensures Without(a + [e] + b, e.id) == a + b
    ensures UniqueIds((a + b) + NewEntries(stream))
    ensures KnownIds(a + [e] + b, stream, log) == KnownIds(a + b, stream, log + [Acked(e.id)])
  {
    var tail := NewEntries(stream);
    var p, q := a + [e] + b, a + b;
    assert UniqueIds(p) by {
      assert forall i | 0 <= i < |p| :: (p + tail)[i] == p[i];
    }
    WithoutAt(a, e, b);
    assert p + tail == a + [e] + (b + tail) && q + tail == a + (b + tail);
    UniqueWithout(a, e, b + tail);
    forall id ensures Known(p, stream, log, id) <==> Known(q, stream, log + [Acked(e.id)], id) {
      HoldsSplit(a, e, b + tail, id);
      assert Acknowledged(log + [Acked(e.id)], id) <==> Acknowledged(log, id) || id == e.id;
    }
  }

  lemma HoldsSplit(a: seq<Entry>, e: Entry, b: seq<Entry>, id: Id)
    ensures Holds(a + [e] + b, id) <==> Holds(a + b, id) || id == e.id
  {
    var p, q := a + [e] + b, a + b;
    assert p[|a|] == e;
    forall i | 0 <= i < |q| ensures Holds(p, q[i].id) {
      assert q[i] == p[if i < |a| then i else i + 1];
    }
    forall i | 0 <= i < |p| && i != |a| ensures Holds(q, p[i].id) {
      assert p[i] == q[if i < |a| then i else i - 1];
    }
  }

  /** What one delivery without a Redis error does, in order. */
  function Acts(cfg: Config, e: Entry): seq<Act> {
    var ok := cfg.handler(e.id, e.deliveries);
    [Handled(e.id, e.deliveries, ok)]
    + (if !ok && cfg.Exhausted(e.deliveries) then [DeadLettered(e.id, e.deliveries)] else [])
    + (if cfg.Settles(e.id, e.deliveries) then [Acked(e.id)] else [])
  }

  /** What one delivery of each of the first `n` entries does. */
  function BatchActs(cfg: Config, p: seq<Entry>, n: nat): seq<Act>
    requires n <= |p|
  {
    if n == 0 then [] else BatchActs(cfg, p, n - 1) + Acts(cfg, Delivered(p[n - 1]))
  }

  lemma BatchActsStep(cfg: Config, log: seq<Act>, p: seq<Entry>, n: nat)
    requires n < |p|
    ensures log + BatchActs(cfg, p, n) + Acts(cfg, Delivered(p[n])) == log + BatchActs(cfg, p, n + 1)
  {
  }

  predicate Clean(p: seq<Entry>, stream: seq<Message>) {
    Decodes(p, |p|) && forall i | 0 <= i < |stream| :: stream[i].decodable
  }

  /** An entry that does not decode. */
  ghost predicate Poison(p: seq<Entry>, n: nat, id: Id)
    requires n <= |p|
  {
    exists i | 0 <= i < n :: p[i].id == id && !p[i].decodable
  }

  lemma {:induction false} KeptDecodes(cfg: Config, p: seq<Entry>, n: nat)
    requires n <= |p| && Decodes(p, n)
    ensures Decodes(Kept(cfg, p, n), |Kept(cfg, p, n)|)
  {
    if n > 0 {
      KeptDecodes(cfg, p, n - 1);
    }
  }

  /** What the pending list may be after the delivery at position `i`, with that entry or without. */
  lemma {:induction false} CurrentDecodes(cfg: Config, read: seq<Entry>, batch: seq<Entry>, rest: seq<Entry>, i: nat)
    requires i < |batch| <= |read| && Decodes(read, i)
    ensures var kept, tail, p := Kept(cfg, read, i), batch[i + 1..] + rest, batch + rest;
            && (Decodes(p, |p|) ==> Decodes(kept + tail, |kept + tail|) && Decodes(kept + [batch[i]] + tail, |kept + [batch[i]] + tail|))
            && (!batch[i].decodable ==> Poison(kept + [batch[i]] + tail, |kept + [batch[i]] + tail|, batch[i].id))
  {
    var kept, tail, p := Kept(cfg, read, i), batch[i + 1..] + rest, batch + rest;
    KeptDecodes(cfg, read, i);
    assert (kept + [batch[i]] + tail)[|kept|] == batch[i];
    if Decodes(p, |p|) {
      assert p[i] == batch[i];
      forall j | 0 <= j < |tail| ensures tail[j].decodable {
        assert tail[j] == p[i + 1 + j];
      }
    }
  }

  /** The pending list before and after the delivery at position `i`. */
  lemma {:induction false} BatchAdvances(cfg: Config, read: seq<Entry>, batch: seq<Entry>, rest: seq<Entry>, i: nat)
    requires i < |batch| <= |read| && batch[i] == Delivered(read[i])
    ensures var kept, e, tail := Kept(cfg, read, i), batch[i], batch[i + 1..] + rest;
            && kept + (batch[i..] + rest) == kept + [e] + tail
            && (if cfg.Settles(e.id, e.deliveries) then kept + tail else kept + [e] + tail) == Kept(cfg, read, i + 1) + (batch[i + 1..] + rest)
  {
    assert batch[i..] == [batch[i]] + batch[i + 1..];
  }

  lemma {:induction false} RestDecodes(cfg: Config, read: seq<Entry>, batch: seq<Entry>, rest: seq<Entry>)
    requires |batch| <= |read| && Decodes(read, |batch|)
    ensures var kept, p, q := Kept(cfg, read, |batch|), batch + rest, Kept(cfg, read, |batch|) + rest;
            Decodes(p, |p|) ==> Decodes(q, |q|)
    ensures batch[|batch|..] + rest == rest
  {
    var p := batch + rest;
    KeptDecodes(cfg, read, |batch|);
    if Decodes(p, |p|) {
      forall j | 0 <= j < |rest| ensures rest[j].decodable {
        assert rest[j] == p[|batch| + j];
      }
    }
  }

  datatype SubscribeResult = Cancelled | Failed(error: ConsumeError)

  /** More batches than outstanding work empty the list. */
  lemma {:induction false} WorkSuffices(cfg: Config, deadline: Id -> nat, p: seq<Entry>, rounds: nat)
    requires Due(cfg, deadline, p)
    ensures rounds > Work(deadline, p, |p|) ==> exists k: nat | k < rounds :: Emptied(cfg, p, k)
  {
    WorkLeft(cfg, deadline, p, |p|);
    DrainsWithinWork(cfg, deadline, p, Work(deadline, p, |p|));
  }

  class StreamConsumer {
    const cfg: Config
    /** Which Redis calls fail, by call number. */
    const faults: nat -> Fault
    /** How many new messages are there to be read at a call. */
    const arrived: nat -> nat
    var calls: nat
    /** Entries delivered to this consumer and not acknowledged, oldest first. */
    var pending: seq<Entry>
    /** Messages of the stream not yet delivered to the group, those still to come included. */
    var stream: seq<Message>
    ghost var log: seq<Act>
    ghost var freshReads: nat

    ghost predicate Valid()
      reads this
    {
      UniqueIds(pending + NewEntries(stream)) && Justified(log)
    }

    /** The calls from `lo` up to `hi` met no fault. */
    ghost predicate Calm(lo: nat, hi: nat) {
      forall n | lo <= n < hi :: faults(n) == Fine
    }

    /** The last call is a new one and met a fault. */
    ghost predicate Faulted(before: nat)
      reads this`calls
    {
      before < calls && faults(calls - 1) != Fine
    }

    method Call() returns (fault: Fault)
      modifies this`calls
      ensures calls == old(calls) + 1 && fault == faults(old(calls))
    {
      fault := faults(calls);
      calls := calls + 1;
    }

    /** Acknowledges the entry between `before` and `after`, unless the call is refused. */
    method XAck(ghost before: seq<Entry>, ghost e: Entry, ghost after: seq<Entry>, id: Id) returns (ok: bool)
      requires Valid() && pending == before + [e] + after && id == e.id
      requires exists i | 0 <= i < |log| :: Settled(log[i], id)
      modifies this`calls, this`pending, this`log
      ensures Valid() && calls == old(calls) + 1
      ensures KnownIds(pending, stream, log) == KnownIds(old(pending), stream, old(log))
      ensures ok <==> faults(old(calls)) == Fine
      ensures pending == if faults(old(calls)) == Refused then old(pending) else before + after
      ensures log == if faults(old(calls)) == Refused then old(log) else old(log) + [Acked(id)]
    {
      AckMoves(before, e, after, stream, log);
      JustifiedMore(log, Acked(id));
      var fault := Call();
      if fault != Refused {
        pending := Without(pending, id);
        log := log + [Acked(id)];
      }
      ok := fault == Fine;
    }

    /** After a failed attempt: leave the entry for a retry, or dead-letter it and acknowledge. */
    method HandleFailure(ghost before: seq<Entry>, e: Entry, ghost after: seq<Entry>, attempt: nat) returns (r: Option<ConsumeError>)
      requires Valid() && pending == before + [e] + after && attempt == e.deliveries
      modifies this`calls, this`pending, this`log
      ensures Valid() && old(log) <= log && calls >= old(calls)
      ensures KnownIds(pending, stream, log) == KnownIds(old(pending), stream, old(log))
      ensures r == if Calm(old(calls), calls) then None else Some(RedisError)
      ensures r.Some? ==> Faulted(old(calls))
      ensures cfg.Exhausted(attempt) <==> cfg.maxAttempts > 0 && cfg.deadLetters && attempt >= cfg.maxAttempts
      ensures r.None? ==> log == old(log) + if cfg.Exhausted(attempt) then [DeadLettered(e.id, attempt), Acked(e.id)] else []
      ensures r.None? ==> pending == if cfg.Exhausted(attempt) then before + after else before + [e] + after
      ensures !cfg.Exhausted(attempt) ==> r.None? && calls == old(calls)
      ensures pending == before + [e] + after || pending == before + after
    {
      if cfg.maxAttempts <= 0 || attempt < cfg.maxAttempts || !cfg.deadLetters {
        return None;
      }
      var fault := Call();
      if fault != Refused {
        Note(DeadLettered(e.id, attempt));
      }
      if fault != Fine {
        return Some(RedisError);
      }
      assert Settled(log[|log| - 1], e.id);
      var acked := XAck(before, e, after, e.id);
      return if acked then None else Some(RedisError);
    }

    /** One delivery attempt of the entry between `before` and `after`. An entry that does not
        decode stops before anything happens. Otherwise the attempt fails exactly if one of its
        Redis calls does; without that the entry is gone exactly if the attempt settles it. */
    method Process(ghost before: seq<Entry>, e: Entry, ghost after: seq<Entry>) returns (r: Option<ConsumeError>)
      requires Valid() && pending == before + [e] + after && e.deliveries > 0
      modifies this`calls, this`pending, this`log
      ensures Valid() && old(log) <= log && calls >= old(calls)
      ensures KnownIds(pending, stream, log) == KnownIds(old(pending), stream, old(log))
      ensures !e.decodable ==> r == Some(Undecodable(e.id)) && calls == old(calls) && pending == old(pending) && log == old(log)
      ensures e.decodable ==> r == (if Calm(old(calls), calls) then None else Some(RedisError))
      ensures r == Some(RedisError) ==> Faulted(old(calls))
      ensures r.None? ==> calls > old(calls) && log == old(log) + Acts(cfg, e)
      ensures r.None? ==> pending == if cfg.Settles(e.id, e.deliveries) then before + after else before + [e] + after
      ensures pending == before + [e] + after || pending == before + after
    {
      if !e.decodable {
        return Some(Undecodable(e.id));
      }
      var fault := Call();
      if fault != Fine {
        return Some(RedisError);
      }
      var attempt := AttemptOf(pending, e.id);
      AttemptOfCurrent(before, e, after, stream);
      var ok := cfg.handler(e.id, attempt);
      Note(Handled(e.id, attempt, ok));
      if !ok {
        r := HandleFailure(before, e, after, attempt);
        return;
      }
      assert Settled(log[|log| - 1], e.id);
      var acked := XAck(before, e, after, e.id);
      return if acked then None else Some(RedisError);
    }

    ghost method Note(act: Act)
      requires Valid() && !act.Acked?
      modifies this`log
      ensures Valid() && log == old(log) + [act]
      ensures KnownIds(pending, stream, log) == KnownIds(pending, stream, old(log))
    {
      JustifiedMore(log, act);
      log := log + [act];
    }

    /** XREADGROUP: the history (`ID` 0) delivers the oldest pending entries again, the special
        ID `>` takes new messages over. A refused call changes nothing. */
    method XReadGroup(history: bool) returns (fault: Fault, batch: seq<Entry>, ghost rest: seq<Entry>, ghost read: seq<Entry>)
      requires Valid() && (!history ==> pending == [])
      modifies this`calls, this`pending, this`stream, this`freshReads
      ensures Valid() && calls == old(calls) + 1 && fault == faults(old(calls))
      ensures KnownIds(pending, stream, log) == KnownIds(old(pending), old(stream), log)
      ensures freshReads == old(freshReads) + if history then 0 else 1
      ensures Clean(old(pending), old(stream)) ==> Clean(pending, stream)
      ensures fault == Refused ==> pending == old(pending) && stream == old(stream)
      ensures fault != Refused ==> pending == batch + rest
      ensures fault != Refused ==> |batch| <= |read| && forall i | 0 <= i < |batch| :: batch[i] == Delivered(read[i])
      ensures fault != Refused && !history ==> forall i | 0 <= i < |batch| :: batch[i].deliveries == 1
      ensures cfg.count > 0 ==> |batch| <= cfg.count
      ensures fault != Refused && history ==> |batch| == if cfg.count > 0 then Min(cfg.count, |old(pending)|) else |old(pending)|
      ensures fault != Refused && history ==>
                |batch| == cfg.Batch(|old(pending)|) && read == old(pending) && rest == read[|batch|..] && stream == old(stream)
      ensures fault != Refused && !history ==>
                && |batch| == cfg.Batch(Min(|old(stream)|, arrived(old(calls)))) && rest == []
                && read == NewEntries(old(stream)[..|batch|]) && stream == old(stream)[|batch|..]
    {
      freshReads := freshReads + if history then 0 else 1;
      ghost var p, s := pending, stream;
      var available := if history then |pending| else Min(|stream|, arrived(calls));
      var n := cfg.Batch(available);
      fault := Call();
      batch, rest, read := [], pending, pending;
      if fault != Refused {
        if !history {
          pending := NewEntries(stream[..n]);
          stream := stream[n..];
        }
        read := pending;
        pending := Redeliver(pending, n);
        batch, rest := pending[..n], pending[n..];
        assert pending == batch + rest;
        SameIdsKnown(p, pending, s, stream, log);
      }
    }

    /** The next entry of a batch of which `i` have been processed. */
    method ProcessNext(batch: seq<Entry>, ghost rest: seq<Entry>, ghost read: seq<Entry>, i: nat) returns (r: Option<ConsumeError>)
      requires Valid() && i < |batch| <= |read| && Decodes(read, i) && batch[i] == Delivered(read[i])
      requires pending == Kept(cfg, read, i) + (batch[i..] + rest)
      modifies this`calls, this`pending, this`log
      ensures Valid() && old(log) <= log && calls >= old(calls)
      ensures KnownIds(pending, stream, log) == KnownIds(old(pending), stream, old(log))
      ensures Decodes(batch + rest, |batch + rest|) ==> Decodes(pending, |pending|)
      ensures r.None? ==> Calm(old(calls), calls) && Decodes(read, i + 1)
      ensures r.None? ==> pending == Kept(cfg, read, i + 1) + (batch[i + 1..] + rest) && log == old(log) + Acts(cfg, batch[i])
      ensures r == Some(RedisError) ==> Faulted(old(calls))
      ensures r.Some? && r.value.Undecodable? ==>
                calls == old(calls) && r.value.id == read[i].id && !read[i].decodable && Poison(pending, |pending|, r.value.id)
    {
      ghost var kept, tail := Kept(cfg, read, i), batch[i + 1..] + rest;
      BatchAdvances(cfg, read, batch, rest, i);
      CurrentDecodes(cfg, read, batch, rest, i);
      r := Process(kept, batch[i], tail);
    }

    /** The entries of a batch in turn, until one does not decode or meets a Redis error. */
    method ProcessBatch(batch: seq<Entry>, ghost rest: seq<Entry>, ghost read: seq<Entry>) returns (r: Option<ConsumeError>)
      requires Valid() && pending == batch + rest
      requires |batch| <= |read| && forall i | 0 <= i < |batch| :: batch[i] == Delivered(read[i])
      modifies this`calls, this`pending, this`log
      ensures Valid() && old(log) <= log && calls >= old(calls)
      ensures KnownIds(pending, stream, log) == KnownIds(old(pending), stream, old(log))
      ensures Decodes(old(pending), |old(pending)|) ==> Decodes(pending, |pending|)
      ensures r.None? ==> Calm(old(calls), calls) && Decodes(read, |batch|)
      ensures r.None? ==> pending == Kept(cfg, read, |batch|) + rest && log == old(log) + BatchActs(cfg, read, |batch|)
      ensures r == Some(RedisError) ==> Faulted(old(calls))
      ensures r.Some? && r.value.Undecodable? ==> Calm(old(calls), calls) && Poison(read, |batch|, r.value.id) && Poison(pending, |pending|, r.value.id)
    {
      ghost var p, l, c := pending, log, calls;
      for i := 0 to |batch|
        invariant Valid() && c <= calls && Calm(c, calls) && Decodes(read, i)
        invariant KnownIds(pending, stream, log) == KnownIds(p, stream, l)
        invariant pending == Kept(cfg, read, i) + (batch[i..] + rest)
        invariant log == l + BatchActs(cfg, read, i)
      {
        BatchActsStep(cfg, l, read, i);
        var failed := ProcessNext(batch, rest, read, i);
        if failed.Some? {
          return failed;
        }
      }
      RestDecodes(cfg, read, batch, rest);
      return None;
    }

    /** One batch. A history batch succeeds exactly if its entries decode and no Redis call
        fails; it then leaves exactly the entries its deliveries did not settle. An entry leaves
        the pending list only by an acknowledgement that follows a success or a dead letter. */
    method Consume(history: bool) returns (r: Result<nat, ConsumeError>)
      requires Valid() && (!history ==> pending == [])
      modifies this
      ensures Valid() && old(log) <= log && calls > old(calls)
      ensures KnownIds(pending, stream, log) == KnownIds(old(pending), old(stream), old(log))
      ensures freshReads == old(freshReads) + if history then 0 else 1
      ensures Clean(old(pending), old(stream)) ==> Clean(pending, stream)
      ensures r.Ok? ==> Calm(old(calls), calls)
      ensures r == Err(RedisError) ==> Faulted(old(calls))
      ensures r.Err? && r.error.Undecodable? ==> Calm(old(calls), calls) && Poison(pending, |pending|, r.error.id)
      ensures history && r.Err? && r.error.Undecodable? ==> !Decodes(old(pending), cfg.Batch(|old(pending)|))
      ensures history && r.Ok? ==>
                && r.value == cfg.Batch(|old(pending)|) && Decodes(old(pending), r.value) && stream == old(stream)
                && pending == Kept(cfg, old(pending), r.value) + old(pending)[r.value..]
                && log == old(log) + BatchActs(cfg, old(pending), r.value)
      ensures !history && r.Ok? ==>
                && r.value == cfg.Batch(Min(|old(stream)|, arrived(old(calls)))) && stream == old(stream)[r.value..]
                && pending == Kept(cfg, NewEntries(old(stream)[..r.value]), r.value)
                && log == old(log) + BatchActs(cfg, NewEntries(old(stream)[..r.value]), r.value)
    {
      var fault, batch, rest, read := XReadGroup(history);
      if fault != Fine {
        return Err(RedisError);
      }
      var failed := ProcessBatch(batch, rest, read);
      return if failed.Some? then Err(failed.value) else Ok(|batch|);
    }

    /** One turn of the loop: the history first and, only if it came back empty, new messages. */
    method Turn() returns (r: Option<ConsumeError>)
      requires Valid()
      modifies this
      ensures Valid() && old(log) <= log && calls > old(calls)
      ensures KnownIds(pending, stream, log) == KnownIds(old(pending), old(stream), old(log))
      ensures Clean(old(pending), old(stream)) ==> Clean(pending, stream)
      ensures r.None? ==> Calm(old(calls), calls)
      ensures r == Some(RedisError) ==> Faulted(old(calls))
      ensures r.Some? && r.value.Undecodable? ==> Poison(pending, |pending|, r.value.id)
      ensures old(pending) != [] ==> freshReads == old(freshReads)
      ensures old(pending) != [] && r.None? ==> Round(cfg, old(pending)) == Some(pending)
      ensures old(pending) != [] && r.Some? && r.value.Undecodable? ==> Round(cfg, old(pending)).None?
      ensures old(pending) == [] ==> freshReads == old(freshReads) + 1 || (freshReads == old(freshReads) && r == Some(RedisError))
    {
      var processed := Consume(true);
      if processed.Err? {
        return Some(processed.error);
      }
      if processed.value > 0 {
        return None;
      }
      assert old(pending) == [] && pending == [];
      var taken := Consume(false);
      return if taken.Err? then Some(taken.error) else None;
    }

    /** At most `rounds` turns of the loop before the context is cancelled. Fresh messages are
        asked for only when the own pending list has been seen empty. Without Redis errors this
        happens exactly when fewer than `rounds` batches empty the list, and at the latest after
        the outstanding work; a stuck list prevents it whatever Redis does. The loop fails only
        on a Redis error or on an entry that does not decode, and such an entry at the head of
        the list always makes it fail. */
    method Subscribe(rounds: nat, ghost deadline: Id -> nat) returns (r: SubscribeResult)
      requires Valid()
      modifies this
      ensures Valid() && old(log) <= log
      ensures KnownIds(pending, stream, log) == KnownIds(old(pending), old(stream), old(log))
      ensures r == Failed(RedisError) ==> Faulted(old(calls))
      ensures r.Failed? ==> calls > old(calls)
      ensures r.Failed? && r.error.Undecodable? ==> Poison(pending, |pending|, r.error.id)
      ensures r.Failed? && r.error.Undecodable? && freshReads == old(freshReads) ==> Blocked(cfg, old(pending), rounds)
      ensures r.Cancelled? ==> calls >= old(calls) + rounds && Calm(old(calls), calls)
      ensures (forall n :: faults(n) == Fine) && Clean(old(pending), old(stream)) ==> r.Cancelled?
      ensures (forall n :: faults(n) == Fine) ==>
                (freshReads > old(freshReads) <==> exists k: nat | k < rounds :: Emptied(cfg, old(pending), k))
      ensures (forall n :: faults(n) == Fine) && Due(cfg, deadline, old(pending)) && rounds > Work(deadline, old(pending), |old(pending)|) ==>
                freshReads > old(freshReads)
      ensures Stuck(cfg, old(pending)) ==> freshReads == old(freshReads)
      ensures rounds > 0 && old(pending) != [] && !old(pending)[0].decodable ==> r.Failed? && freshReads == old(freshReads)
    {
      ghost var p, c, f := pending, calls, freshReads;
      if Due(cfg, deadline, p) {
        WorkSuffices(cfg, deadline, p, rounds);
      }
      for i := 0 to rounds
        invariant Valid() && old(log) <= log && f <= freshReads
        invariant KnownIds(pending, stream, log) == KnownIds(old(pending), old(stream), old(log))
        invariant c + i <= calls && Calm(c, calls)
        invariant Clean(p, old(stream)) ==> Clean(pending, stream)
        invariant Progress(cfg, p, i, freshReads > f, pending)
        invariant Stuck(cfg, p) ==> Stuck(cfg, pending) && freshReads == f
        invariant i > 0 && p != [] ==> p[0].decodable
      {
        ghost var before, emptied := pending, freshReads > f;
        var failed := Turn();
        if before == [] {
          ProgressDone(cfg, p, i, emptied);
        } else if failed.None? {
          ProgressOn(cfg, p, i, emptied, before);
          RoundProgress(cfg, deadline, before, cfg.Batch(|before|), pending);
        } else if failed.value.Undecodable? {
          ProgressStops(cfg, p, i, emptied, before, rounds);
        }
        if failed.Some? {
          return Failed(failed.value);
        }
      }
      return Cancelled;
    }
  }

  lemma {:induction false} AttemptOfCurrent(before: seq<Entry>, e: Entry, after: seq<Entry>, stream: seq<Message>)
    requires UniqueIds((before + [e] + after) + NewEntries(stream)) && e.deliveries > 0
    ensures AttemptOf(before + [e] + after, e.id) == e.deliveries
  {
    var p := before + [e] + after;
    assert UniqueIds(p) by {
      assert forall i | 0 <= i < |p| :: (p + NewEntries(stream))[i] == p[i];
    }
    AttemptAt(before, e, after);
  }
}
