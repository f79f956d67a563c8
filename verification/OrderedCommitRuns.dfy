/** Whole runs of the ordered committer, for every interleaving of its calls.

    Within one generation the marked offsets are compared with an independent reading of
    the call history: which offsets were registered, and which of them have completed. */
module OrderedCommitRuns {
  import opened Prelude
  import opened OrderedCommit

  datatype Op =
    | Register(offset: int, generation: int)
    | Complete(offset: int, generation: int)
    | Abort(generation: int)
    | HighWater(offset: int)

  function Apply(s: CommitState, op: Op): CommitState {
    match op
    case Register(offset, generation) => s.Register(offset, generation, Some(offset))
    case Complete(offset, generation) => s.Complete(offset, generation)
    case Abort(generation) => s.AbortGeneration(generation)
    case HighWater(offset) => s.RecordHighWaterMark(offset)
  }

  function Offsets(marks: seq<Mark>): seq<int> {
    seq(|marks|, i requires 0 <= i < |marks| => marks[i].offset)
  }

  function Emits(s: CommitState, op: Op): seq<int> {
    match op
    case Complete(offset, generation) => Offsets(s.CompleteMarks(offset, generation))
    case _ => []
  }

  function Front<T>(ops: seq<T>): seq<T>
    requires ops != []
  {
    ops[..|ops| - 1]
  }

  function Last<T>(ops: seq<T>): T
    requires ops != []
  {
    ops[|ops| - 1]
  }

  function After(ops: seq<Op>): CommitState {
    if ops == [] then EMPTY else Apply(After(Front(ops)), Last(ops))
  }

  /** The offsets marked during a run, oldest first. */
  function Marked(ops: seq<Op>): seq<int> {
    if ops == [] then [] else Marked(Front(ops)) + Emits(After(Front(ops)), Last(ops))
  }

  // ------------------------------------------------ reading the history alone

  function Registered(ops: seq<Op>): seq<int> {
    if ops == [] then []
    else if Last(ops).Register? then Registered(Front(ops)) + [Last(ops).offset]
    else Registered(Front(ops))
  }

  /** Offsets completed for `generation` after they were registered. */
  function Completed(ops: seq<Op>, generation: int): set<int> {
    if ops == [] then {}
    else
      var before := Completed(Front(ops), generation);
      if Last(ops).Complete? && Last(ops).generation == generation && Last(ops).offset in Registered(Front(ops))
      then before + {Last(ops).offset}
      else before
  }

  ghost predicate Increasing(s: seq<int>) {
    forall i, j | 0 <= i < j < |s| :: s[i] < s[j]
  }

  /** One generation: every registration carries it and it is not aborted. Completions and
      aborts of other generations, and high-water observations, may occur anywhere. */
  ghost predicate InGeneration(ops: seq<Op>, generation: int) {
    && Increasing(Registered(ops))
    && (forall op | op in ops && op.Register? :: op.generation == generation)
    && (forall op | op in ops && op.Abort? :: op.generation != generation)
  }

  function LongestCompletedPrefix(registered: seq<int>, completed: set<int>): seq<int> {
    if registered == [] || registered[0] !in completed then []
    else [registered[0]] + LongestCompletedPrefix(registered[1..], completed)
  }

  /** No offset was registered across a gap while earlier offsets were still held. */
  ghost predicate NoPendingGap(ops: seq<Op>) {
    ops != [] ==>
      && NoPendingGap(Front(ops))
      && (Last(ops).Register? && After(Front(ops)).initialized ==>
            Last(ops).offset == After(Front(ops)).lastRegistered + 1)
  }

  ghost predicate Contiguous(s: seq<int>) {
    forall i | 0 <= i < |s| - 1 :: s[i + 1] == s[i] + 1
  }

  // ---------------------------------------------------------------- any run

  /** Registrations increase within each generation; nothing else is required. */
  ghost predicate Ordered(ops: seq<Op>) {
    ops != [] ==>
      && Ordered(Front(ops))
      && (Last(ops).Register? ==> InOrder(After(Front(ops)), Last(ops).offset, Last(ops).generation))
  }

  /** The committer's invariant holds after every run over any number of generations. */
  lemma {:induction false} RunKeepsInv(ops: seq<Op>)
    requires Ordered(ops)
    ensures Inv(After(ops))
  {
    if ops != [] {
      RunKeepsInv(Front(ops));
      var s := After(Front(ops));
      match Last(ops)
      case Register(offset, generation) => RegisterKeepsInv(s, offset, generation, Some(offset));
      case Complete(offset, generation) => CompleteKeepsInv(s, offset, generation);
      case _ =>
    }
  }

  // ------------------------------------------------------- one generation

  ghost predicate SelfMarked(s: CommitState) {
    forall k | k in s.states :: s.states[k].mark == Some(k)
  }

  function Range(lo: int, hi: int): seq<int>
    requires lo <= hi
  {
    seq(hi - lo, i => lo + i)
  }

  lemma RangeMembers(lo: int, hi: int)
    requires lo <= hi
    ensures forall k :: k in Range(lo, hi) <==> lo <= k < hi
  {
    forall k | lo <= k < hi ensures k in Range(lo, hi) {
      assert Range(lo, hi)[k - lo] == k;
    }
  }

  lemma OffsetsOneMore(mark: Mark, rest: seq<Mark>, lo: int, hi: int)
    requires mark.offset == lo < hi && Offsets(rest) == Range(lo + 1, hi)
    ensures Offsets([mark] + rest) == Range(lo, hi)
  {
    assert Offsets([mark] + rest) == [lo] + Offsets(rest);
    assert Range(lo, hi) == [lo] + Range(lo + 1, hi);
  }

  lemma {:induction false} FlushMarksWholeRange(s: CommitState)
    requires Held(s) && SelfMarked(s)
    ensures s.nextOffset <= s.Flush().nextOffset
    ensures Offsets(s.FlushMarks()) == Range(s.nextOffset, s.Flush().nextOffset)
    decreases |s.states|
  {
    if s.Ready() {
      DropSmaller(s.states, s.nextOffset);
      PopKeepsHeld(s);
      FlushMarksWholeRange(s.Pop());
      OffsetsOneMore(Mark(s.nextOffset, s.nextOffset), s.Pop().FlushMarks(), s.nextOffset, s.Flush().nextOffset);
    }
  }

  function Elements(s: seq<int>): set<int> {
    set k | k in s
  }

  /** How what is held relates to the history of one generation: the marked offsets are
      completed and lie below every held one, and the two together are the registered ones. */
  ghost predicate Divides(states: map<int, CommitEntry>, marked: set<int>, registered: set<int>, completed: set<int>) {
    && (forall k :: k in registered <==> k in marked || k in states)
    && (forall k | k in marked :: k in completed)
    && (forall k | k in completed :: k in registered)
    && (forall a, b | a in marked && b in states :: a < b)
    && (forall k | k in states :: states[k].done <==> k in completed)
    && (forall k | k in states :: states[k].mark == Some(k))
  }

  ghost predicate Tracks(s: CommitState, generation: int, marked: set<int>, registered: set<int>, completed: set<int>) {
    && Inv(s)
    && Divides(s.states, marked, registered, completed)
    && (s.initialized ==> s.generation == generation && forall k | k in registered :: k <= s.lastRegistered)
  }

  lemma TracksRegister(s: CommitState, g: int, marked: set<int>, registered: set<int>, completed: set<int>, offset: int)
    requires Tracks(s, g, marked, registered, completed)
    requires forall k | k in registered :: k < offset
    ensures InOrder(s, offset, g)
    ensures Tracks(s.Register(offset, g, Some(offset)), g, marked, registered + {offset}, completed)
  {
    assert offset !in s.states;
    assert s.initialized ==> s.lastRegistered in registered;
    RegisterKeepsInv(s, offset, g, Some(offset));
    RegistrationHolds(s, offset, g, Some(offset));
  }

  lemma ReleaseDivides(states: map<int, CommitEntry>, states': map<int, CommitEntry>, marked: set<int>, registered: set<int>,
                       completed: set<int>, offset: int, lo: int, hi: int)
    requires Divides(states, marked, registered, completed)
    requires offset in states
    requires forall k | k in states :: lo <= k
    requires forall k | lo <= k < hi :: k in states && (states[k].done || k == offset)
    requires forall k :: k in states' <==> k in states && k >= hi
    requires forall k | k in states' :: states'[k] == states[k].(done := states[k].done || k == offset)
    requires lo <= hi
    ensures Divides(states', marked + Elements(Range(lo, hi)), registered, completed + {offset})
    ensures forall a, b | a in marked && b in Range(lo, hi) :: a < b
  {
    RangeMembers(lo, hi);
    forall a, b | a in marked && b in Range(lo, hi) ensures a < b {
      assert b in states;
    }
  }

  lemma TracksComplete(s: CommitState, g: int, marked: set<int>, registered: set<int>, completed: set<int>, offset: int) returns (end: int)
    requires Tracks(s, g, marked, registered, completed)
    requires s.Accepts(offset, g)
    ensures s.nextOffset <= end
    ensures Offsets(s.CompleteMarks(offset, g)) == Range(s.nextOffset, end)
    ensures Tracks(s.Complete(offset, g), g, marked + Elements(Range(s.nextOffset, end)), registered, completed + {offset})
    ensures forall a, b | a in marked && b in Range(s.nextOffset, end) :: a < b
  {
    var d, t := s.MarkDone(offset), s.Complete(offset, g);
    MarkDoneKeepsHeld(s, offset);
    FlushMarksWholeRange(d);
    CompleteKeepsInv(s, offset, g);
    end := CompletionReleasesPrefix(s, offset, g);
    assert forall k :: k in t.states.Keys <==> k in s.states && k >= end;
    ReleaseDivides(s.states, t.states, marked, registered, completed, offset, s.nextOffset, end);
  }

  // ------------------------------------------------------ the main results

  lemma FrontStays(ops: seq<Op>, g: int)
    requires ops != [] && InGeneration(ops, g)
    ensures InGeneration(Front(ops), g)
    ensures Last(ops).Register? ==>
              Last(ops).generation == g && forall k | k in Registered(Front(ops)) :: k < Last(ops).offset
    ensures Last(ops).Abort? ==> Last(ops).generation != g
  {
    var before := Registered(Front(ops));
    if Last(ops).Register? {
      var all := Registered(ops);
      assert all == before + [Last(ops).offset];
      assert forall i | 0 <= i < |before| :: before[i] == all[i] && all[i] < all[|before|];
    }
  }

  lemma {:induction false} RunTracks(ops: seq<Op>, g: int)
    requires InGeneration(ops, g)
    ensures Tracks(After(ops), g, Elements(Marked(ops)), Elements(Registered(ops)), Completed(ops, g))
    ensures Increasing(Marked(ops))
  {
    if ops != [] {
      var front, op := Front(ops), Last(ops);
      FrontStays(ops, g);
      RunTracks(front, g);
      StepTracks(After(front), g, Marked(front), Elements(Registered(front)), Completed(front, g), op);
      if op.Register? {
        assert Elements(Registered(ops)) == Elements(Registered(front)) + {op.offset};
      }
    }
  }

  lemma StepTracks(s: CommitState, g: int, marked: seq<int>, registered: set<int>, completed: set<int>, op: Op)
    requires Tracks(s, g, Elements(marked), registered, completed) && Increasing(marked)
    requires op.Register? ==> op.generation == g && forall k | k in registered :: k < op.offset
    requires op.Abort? ==> op.generation != g
    ensures Increasing(marked + Emits(s, op))
    ensures Tracks(Apply(s, op), g, Elements(marked + Emits(s, op)),
                   if op.Register? then registered + {op.offset} else registered,
                   if op.Complete? && op.generation == g && op.offset in registered then completed + {op.offset} else completed)
  {
    match op
    case Register(offset, _) =>
      TracksRegister(s, g, Elements(marked), registered, completed, offset);
      assert marked + Emits(s, op) == marked;
    case Complete(offset, generation) =>
      if s.Accepts(offset, generation) {
        StepComplete(s, g, marked, registered, completed, offset);
      } else {
        RejectedCompletion(s, g, Elements(marked), registered, completed, offset, generation);
        assert marked + Emits(s, op) == marked;
      }
    case Abort(_) =>
      assert marked + Emits(s, op) == marked;
    case HighWater(_) =>
      assert marked + Emits(s, op) == marked;
  }

  lemma StepComplete(s: CommitState, g: int, marked: seq<int>, registered: set<int>, completed: set<int>, offset: int)
    requires Tracks(s, g, Elements(marked), registered, completed) && Increasing(marked)
    requires s.Accepts(offset, s.generation)
    ensures s.generation == g && offset in registered
    ensures var run := Offsets(s.CompleteMarks(offset, g));
            Increasing(marked + run) && Tracks(s.Complete(offset, g), g, Elements(marked + run), registered, completed + {offset})
  {
    assert s.initialized;
    var end := TracksComplete(s, g, Elements(marked), registered, completed, offset);
    var run := Range(s.nextOffset, end);
    assert Elements(marked + run) == Elements(marked) + Elements(run);
    IncreasingConcat(marked, run);
  }

  lemma RejectedCompletion(s: CommitState, g: int, marked: set<int>, registered: set<int>, completed: set<int>, offset: int, generation: int)
    requires Tracks(s, g, marked, registered, completed)
    requires !s.Accepts(offset, generation)
    ensures generation == g && offset in registered ==> completed + {offset} == completed
  {
    if generation == g && offset in registered {
      assert offset !in s.states;
    }
  }

  lemma IncreasingConcat(a: seq<int>, b: seq<int>)
    requires Increasing(a) && Increasing(b)
    requires forall x, y | x in Elements(a) && y in b :: x < y
    ensures Increasing(a + b)
  {
    forall i, j | 0 <= i < j < |a + b| ensures (a + b)[i] < (a + b)[j] {
      if i < |a| <= j {
        assert a[i] in Elements(a) && b[j - |a|] in b;
      }
    }
  }

  lemma DownSetHead(part: seq<int>, whole: seq<int>)
    requires Increasing(part) && Increasing(whole) && part != []
    requires forall k | k in part :: k in whole
    requires forall a, b | a in part && b in whole && b !in part :: a < b
    ensures whole != [] && part[0] == whole[0]
  {
    assert part[0] in part && part[0] in whole;
    assert whole[0] in whole;
    assert whole[0] in part;
  }

  lemma {:induction false} DownSetIsPrefix(part: seq<int>, whole: seq<int>)
    requires Increasing(part) && Increasing(whole)
    requires forall k | k in part :: k in whole
    requires forall a, b | a in part && b in whole && b !in part :: a < b
    ensures part <= whole
  {
    if part != [] {
      DownSetHead(part, whole);
      var rest, others := part[1..], whole[1..];
      assert part == [part[0]] + rest && whole == [whole[0]] + others;
      TailMembers(part);
      TailMembers(whole);
      DownSetIsPrefix(rest, others);
    }
  }

  lemma TailMembers(s: seq<int>)
    requires Increasing(s) && s != []
    ensures Increasing(s[1..])
    ensures forall k :: k in s[1..] <==> k in s && k != s[0]
  {
    assert s == [s[0]] + s[1..];
    forall k | k in s[1..] ensures k != s[0] {
      var i :| 0 <= i < |s[1..]| && s[1..][i] == k;
      assert s[0] < s[i + 1];
    }
  }

  /** For every interleaving of registrations and completions within a generation, gaps or
      not: the marked offsets are a prefix of the registered ones, in order and each once,
      every one of them has completed, and exactly the other offsets are still held. */
  lemma {:induction false} MarkedIsCompletedPrefix(ops: seq<Op>, g: int)
    requires InGeneration(ops, g)
    ensures Marked(ops) <= Registered(ops)
    ensures Increasing(Marked(ops))
    ensures forall k | k in Marked(ops) :: k in Completed(ops, g)
    ensures forall k :: k in After(ops).states <==> k in Registered(ops) && k !in Marked(ops)
  {
    RunTracks(ops, g);
    var held := After(ops).states;
    assert forall k | k in Marked(ops) :: k in Elements(Marked(ops));
    assert forall k :: k in Elements(Registered(ops)) <==> k in Registered(ops);
    DownSetIsPrefix(Marked(ops), Registered(ops));
  }

  // ------------------------------------------------- the role of offset gaps

  ghost predicate Dense(s: CommitState) {
    s.initialized ==> forall k | s.nextOffset <= k <= s.lastRegistered :: k in s.states
  }

  /** `x` is an offset nobody registered, and held offsets lie above it. */
  ghost predicate StuckAt(s: CommitState, x: int) {
    s.initialized && s.nextOffset <= x < s.lastRegistered && x !in s.states
  }

  ghost predicate StepInOrder(s: CommitState, g: int, op: Op) {
    && (s.initialized ==> s.generation == g)
    && (op.Register? ==> op.generation == g && op.offset !in s.states && InOrder(s, op.offset, g))
    && (op.Abort? ==> op.generation != g)
  }

  lemma StepDense(s: CommitState, g: int, op: Op)
    requires Inv(s) && Dense(s) && StepInOrder(s, g, op)
    requires op.Register? && s.initialized ==> op.offset == s.lastRegistered + 1
    ensures Dense(Apply(s, op))
  {
    if op.Register? {
      RegistrationHolds(s, op.offset, g, Some(op.offset));
    } else if op.Complete? && s.Accepts(op.offset, op.generation) {
      var end := CompletionReleasesPrefix(s, op.offset, op.generation);
      var t := s.Complete(op.offset, op.generation);
      assert forall k :: k in t.states.Keys <==> k in s.states && k >= end;
      assert t.initialized ==> t.states != map[];
    }
  }

  lemma StepStuck(s: CommitState, g: int, op: Op, x: int)
    requires Inv(s) && StuckAt(s, x) && StepInOrder(s, g, op)
    ensures StuckAt(Apply(s, op), x)
  {
    if op.Register? {
      RegistrationHolds(s, op.offset, g, Some(op.offset));
    } else if op.Complete? && s.Accepts(op.offset, op.generation) {
      var end := CompletionReleasesPrefix(s, op.offset, op.generation);
      var t := s.Complete(op.offset, op.generation);
      assert end <= x;
      assert s.lastRegistered in t.states.Keys;
      CompleteKeepsInv(s, op.offset, op.generation);
    }
  }

  lemma LastStepInOrder(ops: seq<Op>, g: int)
    requires ops != [] && InGeneration(ops, g)
    ensures Inv(After(Front(ops)))
    ensures StepInOrder(After(Front(ops)), g, Last(ops))
  {
    FrontStays(ops, g);
    RunTracks(Front(ops), g);
    var s, registered := After(Front(ops)), Elements(Registered(Front(ops)));
    assert forall k | k in s.states :: k in registered;
    assert s.initialized ==> s.lastRegistered in registered;
  }

  lemma {:induction false} GapFreeRunIsDense(ops: seq<Op>, g: int)
    requires InGeneration(ops, g) && NoPendingGap(ops)
    ensures Dense(After(ops))
  {
    if ops != [] {
      FrontStays(ops, g);
      GapFreeRunIsDense(Front(ops), g);
      LastStepInOrder(ops, g);
      StepDense(After(Front(ops)), g, Last(ops));
    }
  }

  lemma {:induction false} PendingGapSticks(ops: seq<Op>, g: int)
    requires InGeneration(ops, g) && !NoPendingGap(ops)
    ensures exists x :: StuckAt(After(ops), x)
  {
    FrontStays(ops, g);
    LastStepInOrder(ops, g);
    var s, op := After(Front(ops)), Last(ops);
    if NoPendingGap(Front(ops)) {
      RegistrationHolds(s, op.offset, g, Some(op.offset));
      assert StuckAt(After(ops), s.lastRegistered + 1);
    } else {
      PendingGapSticks(Front(ops), g);
      var x :| StuckAt(s, x);
      StepStuck(s, g, op, x);
      assert StuckAt(After(ops), x);
    }
  }

  lemma {:induction false} PrefixIsLongest(registered: seq<int>, completed: set<int>, n: nat)
    requires n <= |registered|
    requires forall i | 0 <= i < n :: registered[i] in completed
    requires n < |registered| ==> registered[n] !in completed
    ensures LongestCompletedPrefix(registered, completed) == registered[..n]
    decreases n
  {
    if n > 0 {
      var rest := registered[1..];
      assert forall i | 0 <= i < n - 1 :: rest[i] == registered[i + 1];
      PrefixIsLongest(rest, completed, n - 1);
      assert registered[..n] == [registered[0]] + rest[..n - 1];
    }
  }

  /** Without a gap under a held offset, the marked offsets are exactly the longest
      completed prefix of the registered ones. */
  lemma {:induction false} GapFreeMarksLongestPrefix(ops: seq<Op>, g: int)
    requires InGeneration(ops, g) && NoPendingGap(ops)
    ensures Marked(ops) == LongestCompletedPrefix(Registered(ops), Completed(ops, g))
  {
    MarkedIsCompletedPrefix(ops, g);
    RunTracks(ops, g);
    GapFreeRunIsDense(ops, g);
    var s, registered, n := After(ops), Registered(ops), |Marked(ops)|;
    assert forall i | 0 <= i < n :: registered[i] == Marked(ops)[i];
    if n < |registered| {
      FirstUnmarkedIsNext(s, Marked(ops), registered);
    }
    PrefixIsLongest(registered, Completed(ops, g), n);
  }

  lemma FirstUnmarkedIsNext(s: CommitState, marked: seq<int>, registered: seq<int>)
    requires Inv(s) && Dense(s)
    requires Increasing(registered) && marked <= registered && |marked| < |registered|
    requires forall k :: k in s.states <==> k in registered && k !in marked
    ensures registered[|marked|] == s.nextOffset && s.nextOffset in s.states
  {
    var n := |marked|;
    var first := registered[n];
    assert first in registered;
    assert first !in marked by {
      forall i | 0 <= i < n ensures marked[i] != first {
        assert marked[i] == registered[i] && registered[i] < registered[n];
      }
    }
    assert first in s.states && s.nextOffset in s.states;
    var j :| 0 <= j < |registered| && registered[j] == s.nextOffset;
    assert forall i | 0 <= i < n :: marked[i] == registered[i];
    assert n <= j;
    assert registered[n] <= registered[j];
  }

  /** Once everything registered has completed, everything is marked if and only if no
      offset was registered across a gap while earlier offsets were held. */
  lemma {:induction false} AllMarkedIffNoPendingGap(ops: seq<Op>, g: int)
    requires InGeneration(ops, g)
    requires Completed(ops, g) == Elements(Registered(ops))
    ensures Marked(ops) == Registered(ops) <==> NoPendingGap(ops)
  {
    if NoPendingGap(ops) {
      GapFreeMarksLongestPrefix(ops, g);
      PrefixIsLongest(Registered(ops), Completed(ops, g), |Registered(ops)|);
    } else {
      PendingGapSticks(ops, g);
      var x :| StuckAt(After(ops), x);
      RunTracks(ops, g);
      MarkedIsCompletedPrefix(ops, g);
      assert After(ops).lastRegistered in After(ops).states;
    }
  }

  lemma {:induction false} OneMoreOp(ops: seq<Op>, op: Op, g: int)
    ensures After(ops + [op]) == Apply(After(ops), op) && Marked(ops + [op]) == Marked(ops) + Emits(After(ops), op)
    ensures Registered(ops + [op]) == if op.Register? then Registered(ops) + [op.offset] else Registered(ops)
    ensures Completed(ops + [op], g) ==
              if op.Complete? && op.generation == g && op.offset in Registered(ops) then Completed(ops, g) + {op.offset} else Completed(ops, g)
  {
    assert Front(ops + [op]) == ops && Last(ops + [op]) == op;
  }

  const ONE_HELD := CommitState(true, 1, 1, 0, map[1 := CommitEntry(false, 1, Some(1))], 0, 1, 0)
  const GAP_HELD := CommitState(true, 1, 1, 0, map[1 := CommitEntry(false, 1, Some(1)), 3 := CommitEntry(false, 1, Some(3))], 0, 3, 2)
  const REST_HELD := CommitState(true, 1, 2, 0, map[3 := CommitEntry(false, 1, Some(3))], 0, 3, 2)

  lemma RegisterAroundGap()
    ensures EMPTY.Register(1, 1, Some(1)) == ONE_HELD && ONE_HELD.Register(3, 1, Some(3)) == GAP_HELD
  {
  }

  /** Offsets 1 and 3 are fetched and 2 is missing from the log. */
  lemma AcrossGap() returns (ops: seq<Op>)
    ensures ops == [Register(1, 1), Register(3, 1)]
    ensures Registered(ops) == [1, 3] && Completed(ops, 1) == {} && Marked(ops) == [] && After(ops) == GAP_HELD
  {
    RegisterAroundGap();
    OneMoreOp([], Register(1, 1), 1);
    ops := [] + [Register(1, 1)];
    OneMoreOp(ops, Register(3, 1), 1);
    ops := ops + [Register(3, 1)];
  }

  lemma ReleaseBelowGap(s: CommitState)
    requires s == GAP_HELD
    ensures Emits(s, Complete(1, 1)) == [1] && s.Complete(1, 1) == REST_HELD
  {
    var d := s.MarkDone(1);
    assert d.Ready() && !d.Pop().Ready();
    assert d.Flush() == d.Pop() && d.FlushMarks() == [Mark(1, 1)];
    assert d.Pop().states == map[3 := CommitEntry(false, 1, Some(3))] && 3 in d.Pop().states;
  }

  lemma NothingAboveGap(s: CommitState)
    requires s == REST_HELD
    ensures Emits(s, Complete(3, 1)) == []
  {
    assert !s.MarkDone(3).Ready();
  }

  lemma FirstCompleted() returns (ops: seq<Op>)
    ensures ops == [Register(1, 1), Register(3, 1), Complete(1, 1)]
    ensures Registered(ops) == [1, 3] && Completed(ops, 1) == {1} && Marked(ops) == [1]
    ensures After(ops) == REST_HELD
  {
    ops := AcrossGap();
    ReleaseBelowGap(After(ops));
    OneMoreOp(ops, Complete(1, 1), 1);
    ops := ops + [Complete(1, 1)];
  }

  lemma BothCompleted() returns (ops: seq<Op>)
    ensures ops == [Register(1, 1), Register(3, 1), Complete(1, 1), Complete(3, 1)]
    ensures Registered(ops) == [1, 3] && Completed(ops, 1) == {1, 3} && Marked(ops) == [1]
  {
    ops := FirstCompleted();
    NothingAboveGap(After(ops));
    OneMoreOp(ops, Complete(3, 1), 1);
    ops := ops + [Complete(3, 1)];
  }

  /** A concrete gap: both offsets fetched around the missing one have completed, and 3 is not
      marked. */
  lemma GapLeavesCompletedUnmarked() returns (ops: seq<Op>)
    ensures InGeneration(ops, 1) && Completed(ops, 1) == Elements(Registered(ops))
    ensures Registered(ops) == [1, 3] && Marked(ops) == [1]
  {
    ops := BothCompleted();
    assert forall op | op in ops && op.Register? :: op.generation == 1;
    assert Elements([1, 3]) == {1, 3};
  }

  /** Contiguous registration is gap free, whatever completes in between. */
  lemma {:induction false} ContiguousHasNoPendingGap(ops: seq<Op>, g: int)
    requires InGeneration(ops, g) && Contiguous(Registered(ops))
    ensures NoPendingGap(ops)
  {
    if ops != [] {
      FrontStays(ops, g);
      var registered, s := Registered(Front(ops)), After(Front(ops));
      assert Registered(ops)[..|registered|] == registered;
      assert forall i | 0 <= i < |registered| :: registered[i] == Registered(ops)[i];
      ContiguousHasNoPendingGap(Front(ops), g);
      if Last(ops).Register? && s.initialized {
        RunTracks(Front(ops), g);
        assert s.lastRegistered in Elements(registered);
        assert registered[|registered| - 1] in Elements(registered);
        assert Registered(ops)[|registered| - 1 + 1] == Registered(ops)[|registered| - 1] + 1;
      }
    }
  }

  /** The committer refines the simple specification: with contiguous registration in one
      generation, the marked sequence is the longest completed prefix at every moment. */
  lemma {:induction false} ContiguousRunsMarkLongestPrefix(ops: seq<Op>, g: int)
    requires InGeneration(ops, g) && Contiguous(Registered(ops))
    ensures Marked(ops) == LongestCompletedPrefix(Registered(ops), Completed(ops, g))
  {
    ContiguousHasNoPendingGap(ops, g);
    GapFreeMarksLongestPrefix(ops, g);
  }

  // ----------------------------------------------------------- the largest gap

  /** From the first registration on, something is held after every call. */
  ghost predicate NeverDrained(ops: seq<Op>) {
    ops != [] ==> NeverDrained(Front(ops)) && (Registered(ops) != [] ==> After(ops).initialized)
  }

  /** `gap` is the largest step between consecutive offsets, or 0 if there is none. */
  ghost predicate LargestStep(gap: int, s: seq<int>) {
    && (forall i | 0 <= i < |s| - 1 :: s[i + 1] - s[i] <= gap)
    && (if |s| <= 1 then gap == 0 else exists i | 0 <= i < |s| - 1 :: s[i + 1] - s[i] == gap)
  }

  lemma OneMoreStep(gap: int, s: seq<int>, x: int, more: seq<int>)
    requires LargestStep(gap, s) && s != [] && s[|s| - 1] < x && more == s + [x]
    ensures LargestStep(Max(gap, x - s[|s| - 1]), more)
  {
    var n := |s| - 1;
    forall i | 0 <= i < |more| - 1 ensures more[i + 1] - more[i] <= Max(gap, x - s[n]) {
      if i < n {
        assert more[i + 1] == s[i + 1] && more[i] == s[i];
      }
    }
    if gap > x - s[n] {
      var i :| 0 <= i < |s| - 1 && s[i + 1] - s[i] == gap;
      assert more[i + 1] - more[i] == gap;
    } else {
      assert more[n + 1] - more[n] == x - s[n];
    }
  }

  ghost predicate GapTracks(s: CommitState, registered: seq<int>) {
    && LargestStep(s.largestGap, registered)
    && (registered != [] ==> s.initialized && s.lastRegistered == registered[|registered| - 1])
    && (registered == [] ==> !s.initialized)
  }

  lemma RegisteredGap(s: CommitState, g: int, offset: int, registered: seq<int>)
    requires Inv(s) && GapTracks(s, registered) && (s.initialized ==> s.generation == g)
    requires forall k | k in registered :: k < offset
    ensures GapTracks(s.Register(offset, g, Some(offset)), registered + [offset])
  {
    if registered == [] {
      FreshRegistration(s, offset, g, Some(offset));
    } else {
      assert registered[|registered| - 1] in registered;
      assert offset !in s.states;
      FurtherRegistration(s, offset, g, Some(offset));
      OneMoreStep(s.largestGap, registered, offset, registered + [offset]);
    }
  }

  lemma OtherGap(s: CommitState, op: Op, registered: seq<int>)
    requires Inv(s) && GapTracks(s, registered) && !op.Register? && (op.Abort? ==> s.initialized ==> s.generation != op.generation)
    requires registered != [] ==> Apply(s, op).initialized
    ensures GapTracks(Apply(s, op), registered)
  {
    if op.Complete? && s.Accepts(op.offset, op.generation) {
      CompleteKeepsInv(s, op.offset, op.generation);
      var end := CompletionReleasesPrefix(s, op.offset, op.generation);
    }
  }

  /** While something is held, the gap reported is the largest step between the offsets registered. */
  lemma {:induction false} ReportedGapIsLargest(ops: seq<Op>, g: int)
    requires InGeneration(ops, g) && NeverDrained(ops)
    ensures GapTracks(After(ops), Registered(ops))
  {
    if ops != [] {
      var s, op := After(Front(ops)), Last(ops);
      FrontStays(ops, g);
      ReportedGapIsLargest(Front(ops), g);
      LastStepInOrder(ops, g);
      if op.Register? {
        RegisteredGap(s, g, op.offset, Registered(Front(ops)));
      } else {
        OtherGap(s, op, Registered(Front(ops)));
      }
    }
  }

  // ------------------------------------------------------ aborted generations

  ghost predicate NoneHeld(s: CommitState, g: int) {
    (s.initialized ==> s.generation != g) && forall k | k in s.states :: s.states[k].generation != g
  }

  lemma AbortDiscards(s: CommitState, g: int)
    requires Inv(s)
    ensures NoneHeld(s.AbortGeneration(g), g)
    ensures !s.initialized || s.generation != g ==> s.AbortGeneration(g) == s
  {
  }

  lemma StepKeepsNoneHeld(s: CommitState, op: Op, g: int)
    requires Inv(s) && NoneHeld(s, g) && !(op.Register? && op.generation == g)
    ensures NoneHeld(Apply(s, op), g)
    ensures op.Complete? && op.generation == g ==> Apply(s, op) == s && Emits(s, op) == []
  {
    if op.Complete? && s.Accepts(op.offset, op.generation) {
      MarkDoneKeepsHeld(s, op.offset);
      FlushRemovesContiguousRange(s.MarkDone(op.offset));
    }
  }

  lemma {:induction false} OrderedFront(ops: seq<Op>, n: nat)
    requires Ordered(ops) && n <= |ops|
    ensures Ordered(ops[..n])
    decreases |ops| - n
  {
    if n < |ops| {
      OrderedFront(ops, n + 1);
      assert Front(ops[..n + 1]) == ops[..n];
    } else {
      assert ops[..n] == ops;
    }
  }

  /** An abort is final for its generation: unless it is registered again, nothing of it is held
      any more, and late completions of it run no callback and change nothing. */
  lemma {:induction false} AbortedGenerationNeverMarks(ops: seq<Op>, g: int, n: nat, m: nat)
    requires Ordered(ops) && n < m <= |ops| && ops[n] == Abort(g)
    requires forall i | n < i < |ops| && ops[i].Register? :: ops[i].generation != g
    ensures NoneHeld(After(ops[..m]), g)
    ensures m < |ops| && ops[m].Complete? && ops[m].generation == g ==>
              Emits(After(ops[..m]), ops[m]) == [] && After(ops[..m + 1]) == After(ops[..m])
  {
    OrderedFront(ops, m);
    OrderedFront(ops, m - 1);
    RunKeepsInv(ops[..m]);
    RunKeepsInv(ops[..m - 1]);
    assert Front(ops[..m]) == ops[..m - 1] && Last(ops[..m]) == ops[m - 1];
    if m == n + 1 {
      AbortDiscards(After(ops[..n]), g);
    } else {
      AbortedGenerationNeverMarks(ops, g, n, m - 1);
      StepKeepsNoneHeld(After(ops[..m - 1]), ops[m - 1], g);
    }
    if m < |ops| {
      assert Front(ops[..m + 1]) == ops[..m] && Last(ops[..m + 1]) == ops[m];
      StepKeepsNoneHeld(After(ops[..m]), ops[m], g);
    }
  }

  // --------------------------------------------------- high-water observations

  /** The run without its high-water observations. */
  function Quiet(ops: seq<Op>): seq<Op> {
    if ops == [] then []
    else if Last(ops).HighWater? then Quiet(Front(ops))
    else Quiet(Front(ops)) + [Last(ops)]
  }

  function Dim(s: CommitState): CommitState {
    s.(highWaterMark := 0)
  }

  lemma {:induction false} FlushIgnoresHighWater(s: CommitState)
    ensures Dim(s.Flush()) == Dim(s).Flush() && s.FlushMarks() == Dim(s).FlushMarks()
    decreases |s.states|
  {
    if s.Ready() {
      DropSmaller(s.states, s.nextOffset);
      FlushIgnoresHighWater(s.Pop());
      assert Dim(s).Pop() == Dim(s.Pop());
    }
  }

  lemma StepIgnoresHighWater(s: CommitState, op: Op)
    ensures op.HighWater? ==> Dim(Apply(s, op)) == Dim(s) && Emits(s, op) == []
    ensures !op.HighWater? ==> Dim(Apply(s, op)) == Dim(Apply(Dim(s), op)) && Emits(s, op) == Emits(Dim(s), op)
  {
    if op.Complete? && s.Accepts(op.offset, op.generation) {
      FlushIgnoresHighWater(s.MarkDone(op.offset));
      assert Dim(s).MarkDone(op.offset) == Dim(s.MarkDone(op.offset));
    }
  }

  /** High-water observations, wherever they occur, change nothing about what is held or marked. */
  lemma {:induction false} HighWaterNeverAffectsMarks(ops: seq<Op>)
    ensures Marked(Quiet(ops)) == Marked(ops)
    ensures Dim(After(Quiet(ops))) == Dim(After(ops))
  {
    if ops != [] {
      var s, t, op := After(Front(ops)), After(Quiet(Front(ops))), Last(ops);
      HighWaterNeverAffectsMarks(Front(ops));
      StepIgnoresHighWater(s, op);
      if !op.HighWater? {
        StepIgnoresHighWater(t, op);
        assert Front(Quiet(ops)) == Quiet(Front(ops)) && Last(Quiet(ops)) == op;
      }
    }
  }
}
