/** The per-partition ordered committer of the Kafka provider.

    Offsets are registered as they are fetched and may complete in any order. A mark
    callback runs only when every earlier registered offset has completed. The class is
    the committer as the provider keeps it; each of its methods is specified by a
    function on the immutable snapshot `CommitState`, and the lemmas say what those
    functions guarantee over whole runs. */
module OrderedCommit {
  import opened Prelude

  /** The callback given at registration; the model only needs to tell callbacks apart. */
  type Callback = int

  datatype CommitEntry = CommitEntry(done: bool, generation: int, mark: Option<Callback>)

  /** One executed mark callback, with the offset whose turn it was. */
  datatype Mark = Mark(offset: int, callback: Callback)

  function Emitted(offset: int, entry: CommitEntry): seq<Mark> {
    match entry.mark
    case None => []
    case Some(callback) => [Mark(offset, callback)]
  }

  ghost function DoneOffsets(states: map<int, CommitEntry>): set<int> {
    set k | k in states && states[k].done
  }

  datatype CommitState = CommitState(
    initialized: bool,
    generation: int,
    nextOffset: int,
    highWaterMark: int,
    states: map<int, CommitEntry>,
    doneCount: int,
    lastRegistered: int,
    largestGap: int)
  {
    /** Registration: a new generation drops everything held for the old one, and the
        first offset seen becomes the lower bound of contiguous completion. */
    function Register(offset: int, generationID: int, mark: Option<Callback>): CommitState {
      var base := if initialized && generation != generationID then EMPTY else this;
      var seeded := if base.initialized then base
                    else base.(initialized := true, generation := generationID,
                               nextOffset := offset, lastRegistered := offset);
      if offset in seeded.states then seeded
      else
        var observed := if seeded.states != map[] && offset > seeded.lastRegistered
                        then seeded.(largestGap := Max(seeded.largestGap, offset - seeded.lastRegistered),
                                     lastRegistered := offset)
                        else seeded;
        observed.(states := observed.states[offset := CommitEntry(false, generationID, mark)])
    }

    predicate Ready() {
      nextOffset in states && states[nextOffset].done
    }

    function Pop(): CommitState
      requires Ready()
    {
      this.(states := states - {nextOffset}, doneCount := doneCount - 1, nextOffset := nextOffset + 1)
    }

    /** The state after the contiguous completed range has been removed. */
    function Flush(): CommitState
      decreases |states|
    {
      if Ready() then
        assert |(states - {nextOffset}).Keys| < |states.Keys| by { DropSmaller(states, nextOffset); }
        Pop().Flush()
      else this
    }

    /** The callbacks run while that range is removed, in order. */
    function FlushMarks(): seq<Mark>
      decreases |states|
    {
      if Ready() then
        assert |(states - {nextOffset}).Keys| < |states.Keys| by { DropSmaller(states, nextOffset); }
        Emitted(nextOffset, states[nextOffset]) + Pop().FlushMarks()
      else []
    }

    /** A completion is accepted only for a held offset of the current generation. */
    predicate Accepts(offset: int, generationID: int) {
      offset in states && states[offset].generation == generationID && generation == generationID
    }

    function MarkDone(offset: int): CommitState
      requires offset in states
    {
      if states[offset].done then this
      else this.(states := states[offset := states[offset].(done := true)], doneCount := doneCount + 1)
    }

    function Complete(offset: int, generationID: int): CommitState {
      if !Accepts(offset, generationID) then this
      else
        var flushed := MarkDone(offset).Flush();
        if flushed.states == map[] then EMPTY else flushed
    }

    function CompleteMarks(offset: int, generationID: int): seq<Mark> {
      if !Accepts(offset, generationID) then [] else MarkDone(offset).FlushMarks()
    }

    function AbortGeneration(generationID: int): CommitState {
      if !initialized || generation != generationID then this else EMPTY
    }

    function RecordHighWaterMark(offset: int): CommitState {
      if offset > highWaterMark then this.(highWaterMark := offset) else this
    }
  }

  const EMPTY: CommitState := CommitState(false, 0, 0, 0, map[], 0, 0, 0)

  lemma {:induction false} FlushUnfolds(s: CommitState, calls: seq<Mark>)
    requires s.Ready()
    ensures s.Flush() == s.Pop().Flush()
    ensures calls + s.FlushMarks() == (calls + Emitted(s.nextOffset, s.states[s.nextOffset])) + s.Pop().FlushMarks()
  {
  }

  lemma DropSmaller(states: map<int, CommitEntry>, k: int)
    requires k in states
    ensures |states - {k}| < |states|
  {
    assert (states - {k}).Keys == states.Keys - {k};
  }

  /** What the diagnostic snapshot reports. */
  datatype Snapshot = Snapshot(
    initialized: bool,
    nextOffset: int,
    highWaterMark: int,
    pendingCount: nat,
    doneCount: int,
    oldestPending: int,
    largestGap: int)

  class PartitionOrderedCommitter {
    var initialized: bool
    var generationID: int
    var nextOffset: int
    var highWaterMarkOffset: int
    var states: map<int, CommitEntry>
    var doneCount: int
    var lastRegisteredOffset: int
    var largestRegisterGap: int

    function State(): CommitState
      reads this
    {
      CommitState(initialized, generationID, nextOffset, highWaterMarkOffset, states, doneCount,
                  lastRegisteredOffset, largestRegisterGap)
    }

    constructor ()
      ensures State() == EMPTY
    {
      initialized, generationID, nextOffset, highWaterMarkOffset := false, 0, 0, 0;
      states, doneCount, lastRegisteredOffset, largestRegisterGap := map[], 0, 0, 0;
    }

    method Register(offset: int, generation: int, mark: Option<Callback>)
      modifies this
      ensures State() == old(State()).Register(offset, generation, mark)
      ensures old(initialized) && old(generationID) != generation ==>
                states == map[offset := CommitEntry(false, generation, mark)] && nextOffset == offset && generationID == generation
      ensures old(initialized) && old(generationID) == generation && offset in old(states) ==> State() == old(State())
      ensures old(initialized) && old(generationID) == generation && offset !in old(states) ==>
                states == old(states)[offset := CommitEntry(false, generation, mark)] && nextOffset == old(nextOffset)
    {
      if initialized && generationID != generation {
        Reset();
      }
      if !initialized {
        initialized := true;
        generationID := generation;
        nextOffset := offset;
        lastRegisteredOffset := offset;
      }
      if offset in states {
        return;
      }
      if |states| > 0 && offset > lastRegisteredOffset {
        var gap := offset - lastRegisteredOffset;
        if gap > largestRegisterGap {
          largestRegisterGap := gap;
        }
        lastRegisteredOffset := offset;
      }
      states := states[offset := CommitEntry(false, generation, mark)];
    }

    method Complete(offset: int, generation: int) returns (calls: seq<Mark>)
      modifies this
      ensures State() == old(State()).Complete(offset, generation)
      ensures calls == old(State()).CompleteMarks(offset, generation)
    {
      calls := [];
      if offset !in states {
        return;
      }
      var state := states[offset];
      if state.generation != generation || generationID != generation {
        return;
      }
      if !state.done {
        states := states[offset := state.(done := true)];
        doneCount := doneCount + 1;
      }
      assert State() == old(State()).MarkDone(offset);
      calls := FlushContiguous();
      if |states| == 0 {
        Reset();
      }
    }

    /** The loop of `Complete` that advances through the contiguous completed range. */
    method FlushContiguous() returns (calls: seq<Mark>)
      modifies this
      ensures State() == old(State()).Flush()
      ensures calls == old(State()).FlushMarks()
    {
      calls := [];
      while nextOffset in states && states[nextOffset].done
        invariant State().Flush() == old(State()).Flush()
        invariant calls + State().FlushMarks() == old(State()).FlushMarks()
        decreases |states|
      {
        ghost var before, run := State(), calls;
        DropSmaller(states, nextOffset);
        FlushUnfolds(before, run);
        calls := calls + Emitted(nextOffset, states[nextOffset]);
        states := states - {nextOffset};
        doneCount := doneCount - 1;
        nextOffset := nextOffset + 1;
        assert State() == before.Pop();
      }
    }

    /** Afterwards nothing of the generation is held; the state of another generation stays. */
    method AbortGeneration(generation: int)
      modifies this
      ensures State() == old(State()).AbortGeneration(generation)
      ensures State() == if old(initialized) && old(generationID) == generation then EMPTY else old(State())
    {
      if !initialized || generationID != generation {
        return;
      }
      Reset();
    }

    method RecordHighWaterMark(offset: int)
      modifies this
      ensures State() == old(State()).RecordHighWaterMark(offset)
      ensures highWaterMarkOffset == Max(old(highWaterMarkOffset), offset)
      ensures State() == old(State()).(highWaterMark := highWaterMarkOffset)
    {
      if offset > highWaterMarkOffset {
        highWaterMarkOffset := offset;
      }
    }

    /** Reads only. Under the committer's invariant `doneCount` counts the completed
        offsets that wait, and the oldest pending offset is a lower bound of all pending ones. */
    method Report() returns (r: Snapshot)
      requires Inv(State())
      ensures r.pendingCount == |states| && r.doneCount == |DoneOffsets(states)|
      ensures 0 <= r.doneCount <= r.pendingCount
      ensures r.initialized <==> r.pendingCount > 0
      ensures forall k | k in states :: r.oldestPending <= k
      ensures r.oldestPending in states ==> !states[r.oldestPending].done
      ensures r.nextOffset == nextOffset && r.highWaterMark == highWaterMarkOffset
      ensures r.largestGap == largestRegisterGap
    {
      var oldest := 0;
      if |states| > 0 {
        oldest := nextOffset;
      }
      DoneWithin(states);
      return Snapshot(initialized, nextOffset, highWaterMarkOffset, |states|, doneCount, oldest, largestRegisterGap);
    }

    method Reset()
      modifies this
      ensures State() == EMPTY
    {
      initialized := false;
      generationID := 0;
      nextOffset := 0;
      highWaterMarkOffset := 0;
      states := map[];
      doneCount := 0;
      lastRegisteredOffset := 0;
      largestRegisterGap := 0;
    }
  }

  lemma DoneWithin(states: map<int, CommitEntry>)
    ensures |DoneOffsets(states)| <= |states|
  {
    SubsetSize(DoneOffsets(states), states.Keys);
  }

  lemma SubsetSize<T>(a: set<T>, b: set<T>)
    requires a <= b
    ensures |a| <= |b|
  {
    assert b == a + (b - a);
  }

  // ---------------------------------------------------------------- invariant

  /** What holds between calls when offsets increase within a generation. */
  ghost predicate Inv(s: CommitState) {
    && Held(s)
    && (s.initialized <==> s.states != map[])
    && (!s.initialized ==> s == EMPTY.(highWaterMark := s.highWaterMark))
    && !s.Ready()
  }

  /** The part of the invariant that also holds half way through a flush. */
  ghost predicate Held(s: CommitState) {
    && (forall k | k in s.states :: s.nextOffset <= k <= s.lastRegistered)
    && (forall k | k in s.states :: s.states[k].generation == s.generation)
    && (s.states != map[] ==> s.lastRegistered in s.states)
    && s.doneCount == |DoneOffsets(s.states)|
  }

  /** Within a generation offsets are registered in increasing order. */
  ghost predicate InOrder(s: CommitState, offset: int, generation: int) {
    s.initialized && s.generation == generation ==> offset in s.states || offset > s.lastRegistered
  }

  lemma RegisterKeepsInv(s: CommitState, offset: int, generation: int, mark: Option<Callback>)
    requires Inv(s) && InOrder(s, offset, generation)
    ensures Inv(s.Register(offset, generation, mark))
    ensures s.Register(offset, generation, mark).initialized
    ensures s.Register(offset, generation, mark).generation == generation
  {
    var t := s.Register(offset, generation, mark);
    var kept := if s.initialized && s.generation != generation then map[] else s.states;
    assert offset in t.states;
    assert DoneOffsets(t.states) == DoneOffsets(kept);
  }

  /** Registering a new offset in order adds it to what is held, and nothing else is dropped
      unless the generation changed. */
  lemma RegistrationHolds(s: CommitState, offset: int, generation: int, mark: Option<Callback>)
    requires Inv(s) && InOrder(s, offset, generation) && offset !in s.states
    requires s.initialized ==> s.generation == generation
    ensures var t := s.Register(offset, generation, mark);
            && t.states == s.states[offset := CommitEntry(false, generation, mark)]
            && DoneOffsets(t.states) == DoneOffsets(s.states)
            && t.lastRegistered == offset && t.generation == generation && t.initialized
            && t.nextOffset == (if s.initialized then s.nextOffset else offset)
  {
    var t := s.Register(offset, generation, mark);
    assert DoneOffsets(t.states) == DoneOffsets(s.states);
  }

  /** The first registration of a generation starts afresh: the offset is the lower bound and the only
      one held, with the callback given now, and nothing of another generation is left. */
  lemma FreshRegistration(s: CommitState, offset: int, generation: int, mark: Option<Callback>)
    requires Inv(s) && (s.initialized ==> s.generation != generation)
    ensures var t := s.Register(offset, generation, mark);
            && t.states == map[offset := CommitEntry(false, generation, mark)]
            && t.initialized && t.generation == generation && t.nextOffset == offset && t.lastRegistered == offset
            && t.doneCount == 0 && t.largestGap == 0 && t.highWaterMark == if s.initialized then 0 else s.highWaterMark
  {
  }

  /** A repeated registration changes nothing, in particular not the callback held. */
  lemma RepeatedRegistration(s: CommitState, offset: int, generation: int, mark: Option<Callback>)
    requires s.initialized && s.generation == generation && offset in s.states
    ensures s.Register(offset, generation, mark) == s
  {
  }

  /** A further registration adds the offset with its callback and leaves every other one as it was;
      in order it counts as the last one, and the largest gap takes the step to it into account. */
  lemma FurtherRegistration(s: CommitState, offset: int, generation: int, mark: Option<Callback>)
    requires Inv(s) && s.initialized && s.generation == generation && offset !in s.states
    ensures var t := s.Register(offset, generation, mark);
            && t.states == s.states[offset := CommitEntry(false, generation, mark)]
            && t.lastRegistered == Max(s.lastRegistered, offset)
            && t.largestGap == (if offset > s.lastRegistered then Max(s.largestGap, offset - s.lastRegistered) else s.largestGap)
            && t == s.(states := t.states, lastRegistered := t.lastRegistered, largestGap := t.largestGap)
  {
  }

  lemma MarkDoneKeepsHeld(s: CommitState, offset: int)
    requires Held(s) && offset in s.states
    ensures Held(s.MarkDone(offset))
    ensures s.MarkDone(offset).states.Keys == s.states.Keys
  {
    var t := s.MarkDone(offset);
    if !s.states[offset].done {
      assert DoneOffsets(t.states) == DoneOffsets(s.states) + {offset};
    }
  }

  lemma PopKeepsHeld(s: CommitState)
    requires Held(s) && s.Ready()
    ensures Held(s.Pop())
  {
    var t := s.Pop();
    assert DoneOffsets(t.states) == DoneOffsets(s.states) - {s.nextOffset};
    if s.lastRegistered == s.nextOffset {
      assert forall k | k in t.states.Keys :: k in s.states && k == s.nextOffset;
      assert t.states.Keys == {};
      assert t.states == map[];
    }
  }

  /** The flush removes exactly the contiguous completed range that starts at
      `nextOffset` and stops at the first offset that is missing or not done. */
  lemma {:induction false} FlushRemovesContiguousRange(s: CommitState)
    requires Held(s)
    ensures var t := s.Flush();
            && Held(t) && !t.Ready() && s.nextOffset <= t.nextOffset
            && (forall k | s.nextOffset <= k < t.nextOffset :: k in s.states && s.states[k].done)
            && t.states == (map k | k in s.states && k >= t.nextOffset :: s.states[k])
            && t == s.(states := t.states, doneCount := t.doneCount, nextOffset := t.nextOffset)
    decreases |s.states|
  {
    if s.Ready() {
      DropSmaller(s.states, s.nextOffset);
      PopKeepsHeld(s);
      FlushRemovesContiguousRange(s.Pop());
      var t := s.Flush();
      forall k | s.nextOffset <= k < t.nextOffset ensures k in s.states && s.states[k].done {
        assert k == s.nextOffset || k in s.Pop().states;
      }
    } else {
      assert s.states == (map k | k in s.states && k >= s.nextOffset :: s.states[k]);
    }
  }

  /** The callbacks of exactly the offsets from `lo` to below `hi`, each once, in offset order. */
  ghost predicate MarksRange(marks: seq<Mark>, states: map<int, CommitEntry>, lo: int, hi: int) {
    && (forall m | m in marks :: lo <= m.offset < hi && m.offset in states && states[m.offset].mark == Some(m.callback))
    && (forall k | lo <= k < hi && k in states && states[k].mark.Some? :: Mark(k, states[k].mark.value) in marks)
    && (forall i, j | 0 <= i < j < |marks| :: marks[i].offset < marks[j].offset)
  }

  lemma OneMoreMark(rest: seq<Mark>, states: map<int, CommitEntry>, lo: int, hi: int)
    requires lo in states && lo < hi && MarksRange(rest, states - {lo}, lo + 1, hi)
    ensures MarksRange(Emitted(lo, states[lo]) + rest, states, lo, hi)
  {
    var first, marks := Emitted(lo, states[lo]), Emitted(lo, states[lo]) + rest;
    forall m | m in marks ensures lo <= m.offset < hi && m.offset in states && states[m.offset].mark == Some(m.callback) {
      assert m in first || m in rest;
    }
    forall k | lo <= k < hi && k in states && states[k].mark.Some? ensures Mark(k, states[k].mark.value) in marks {
      assert k == lo ==> Mark(k, states[k].mark.value) == first[0] == marks[0];
      assert k != lo ==> k in states - {lo} && Mark(k, states[k].mark.value) in rest;
    }
  }

  /** Every offset removed by the flush, and no other, has its callback run, in offset order. */
  lemma {:induction false} FlushMarksInOrder(s: CommitState)
    requires Held(s)
    ensures MarksRange(s.FlushMarks(), s.states, s.nextOffset, s.Flush().nextOffset)
    decreases |s.states|
  {
    if s.Ready() {
      DropSmaller(s.states, s.nextOffset);
      PopKeepsHeld(s);
      FlushMarksInOrder(s.Pop());
      FlushRemovesContiguousRange(s.Pop());
      OneMoreMark(s.Pop().FlushMarks(), s.states, s.nextOffset, s.Flush().nextOffset);
    }
  }

  lemma CompleteKeepsInv(s: CommitState, offset: int, generation: int)
    requires Inv(s)
    ensures Inv(s.Complete(offset, generation))
  {
    if s.Accepts(offset, generation) {
      MarkDoneKeepsHeld(s, offset);
      FlushRemovesContiguousRange(s.MarkDone(offset));
    } else {
      assert s.Complete(offset, generation) == s;
    }
  }

  lemma CompletionReleases(s: CommitState, offset: int, generation: int, t: CommitState) returns (end: int)
    requires Inv(s) && s.Accepts(offset, generation) && t == s.Complete(offset, generation)
    ensures s.nextOffset <= end == s.MarkDone(offset).Flush().nextOffset
    ensures forall k | s.nextOffset <= k < end :: k in s.states && (s.states[k].done || k == offset)
    ensures end in s.states ==> end != offset && !s.states[end].done
    ensures t.states.Keys == set k | k in s.states && k >= end
    ensures forall k | k in t.states :: t.states[k] == s.states[k].(done := s.states[k].done || k == offset)
    ensures t.states != map[] ==> t.nextOffset == end && t.generation == s.generation && t.lastRegistered == s.lastRegistered
    ensures t.states != map[] ==> t.highWaterMark == s.highWaterMark && t.largestGap == s.largestGap
    ensures t.states == map[] ==> t == EMPTY
  {
    var d := s.MarkDone(offset);
    MarkDoneKeepsHeld(s, offset);
    FlushRemovesContiguousRange(d);
    end := d.Flush().nextOffset;
    forall k | s.nextOffset <= k < end ensures k in s.states && (s.states[k].done || k == offset) {
      assert k in d.states.Keys;
    }
    if end in s.states {
      assert end in d.Flush().states;
    }
  }

  lemma CompletionMarks(s: CommitState, offset: int, generation: int, end: int)
    requires Inv(s) && s.Accepts(offset, generation) && end == s.MarkDone(offset).Flush().nextOffset
    ensures MarksRange(s.CompleteMarks(offset, generation), s.states, s.nextOffset, end)
  {
    var d := s.MarkDone(offset);
    MarkDoneKeepsHeld(s, offset);
    FlushMarksInOrder(d);
    SameMarks(d.FlushMarks(), d.states, s.states, s.nextOffset, end);
  }

  lemma SameMarks(marks: seq<Mark>, states: map<int, CommitEntry>, others: map<int, CommitEntry>, lo: int, hi: int)
    requires MarksRange(marks, states, lo, hi)
    requires states.Keys == others.Keys && forall k | k in states :: states[k].mark == others[k].mark
    ensures MarksRange(marks, others, lo, hi)
  {
  }

  /** What one accepted completion does: nothing but the completed offset becomes done, the
      offsets it releases form a range of completed offsets from `nextOffset`, each released
      offset with a callback has it run once in order, and everything above stays held. Nothing is
      remembered once nothing is held. */
  lemma CompletionReleasesPrefix(s: CommitState, offset: int, generation: int) returns (end: int)
    requires Inv(s) && s.Accepts(offset, generation)
    ensures var t := s.Complete(offset, generation);
            && s.nextOffset <= end == s.MarkDone(offset).Flush().nextOffset
            && (forall k | s.nextOffset <= k < end :: k in s.states && (s.states[k].done || k == offset))
            && (end in s.states ==> end != offset && !s.states[end].done)
            && t.states.Keys == (set k | k in s.states && k >= end)
            && (forall k | k in t.states :: t.states[k] == s.states[k].(done := s.states[k].done || k == offset))
            && (t.states != map[] ==> t.nextOffset == end && t.generation == s.generation && t.lastRegistered == s.lastRegistered)
            && (t.states != map[] ==> t.highWaterMark == s.highWaterMark && t.largestGap == s.largestGap)
            && (t.states == map[] ==> t == EMPTY)
    ensures MarksRange(s.CompleteMarks(offset, generation), s.states, s.nextOffset, end)
  {
    end := CompletionReleases(s, offset, generation, s.Complete(offset, generation));
    CompletionMarks(s, offset, generation, end);
  }

  /** Completions of another generation, and of offsets that are not held, change nothing. */
  lemma StaleCompletionIgnored(s: CommitState, offset: int, generation: int)
    requires Inv(s) && (generation != s.generation || !s.initialized)
    ensures s.Complete(offset, generation) == s && s.CompleteMarks(offset, generation) == []
  {
    assert !s.Accepts(offset, generation);
  }
}
