/** The `topic:partition` keys of the committer registry, and the parser the protector reads
    them back with. */
module CommitKeys {
  import opened Prelude
  import opened OrderedCommit

  const TWO_31 := 0x8000_0000
  const TWO_32 := 0x1_0000_0000

  predicate IsInt32(n: int) { -TWO_31 <= n < TWO_31 }

  /** 32-bit two's complement wrap-around. */
  function Wrap32(n: int): int {
    (n + TWO_31) % TWO_32 - TWO_31
  }

  predicate IsDigit(c: char) { '0' <= c <= '9' }

  function DigitValue(c: char): int
    requires IsDigit(c)
  {
    c as int - '0' as int
  }

  // ------------------------------------------------------------- formatting

  function Digits(n: nat): string {
    if n < 10 then [('0' as int + n) as char] else Digits(n / 10) + [('0' as int + n % 10) as char]
  }

  /** The verb %d. */
  function Decimal(n: int): string {
    if n < 0 then "-" + Digits(-n) else Digits(n)
  }

  function CommitKey(topic: string, partition: int): string {
    topic + ":" + Decimal(partition)
  }

  predicate AllDigits(s: string) {
    forall i | 0 <= i < |s| :: IsDigit(s[i])
  }

  /** The number a digit string denotes. */
  function Value(s: string, n: nat): nat
    requires n <= |s| && AllDigits(s)
  {
    if n == 0 then 0 else 10 * Value(s, n - 1) + DigitValue(s[n - 1])
  }

  lemma {:induction false} DigitsDenote(n: nat)
    ensures AllDigits(Digits(n)) && Digits(n) != ""
    ensures Value(Digits(n), |Digits(n)|) == n
  {
    if n >= 10 {
      var front, s := Digits(n / 10), Digits(n);
      DigitsDenote(n / 10);
      assert forall i | 0 <= i < |front| :: s[i] == front[i];
      ValuePrefix(front, s, |front|);
    }
  }

  lemma {:induction false} ValuePrefix(a: string, b: string, n: nat)
    requires n <= |a| <= |b| && AllDigits(a) && AllDigits(b) && forall i | 0 <= i < n :: a[i] == b[i]
    ensures Value(a, n) == Value(b, n)
  {
    if n > 0 {
      ValuePrefix(a, b, n - 1);
    }
  }

  // ---------------------------------------------------------------- parsing

  ghost predicate LastColon(key: string, at: int) {
    0 <= at < |key| && key[at] == ':' && forall i | at < i < |key| :: key[i] != ':'
  }

  /** `found` is what a key denotes: a nonempty topic before the last colon and, after it, digits
      read modulo 2^32. */
  ghost predicate Denotes(key: string, topic: string, partition: int) {
    exists at :: LastColon(key, at) && at > 0 && topic == key[..at] && AllDigits(key[at + 1..])
      && partition == Wrap32(Value(key[at + 1..], |key| - at - 1))
  }

  method SplitCommitKey(key: string) returns (topic: string, partition: int, ok: bool)
    ensures ok ==> Denotes(key, topic, partition) && IsInt32(partition)
    ensures !ok ==> forall t, p :: !Denotes(key, t, p)
  {
    var idx := |key| - 1;
    while idx >= 0
      invariant -1 <= idx < |key|
      invariant forall i | idx < i < |key| :: key[i] != ':'
    {
      if key[idx] != ':' {
        idx := idx - 1;
        continue;
      }
      topic, partition := key[..idx], 0;
      var tail := key[idx + 1..];
      assert LastColon(key, idx);
      for j := 0 to |tail|
        invariant AllDigits(tail[..j]) && forall i | 0 <= i < j :: IsDigit(tail[i])
        invariant partition == Wrap32(Value(tail[..j], j))
      {
        if !IsDigit(tail[j]) {
          NotDenoted(key, idx, j);
          return "", 0, false;
        }
        var digit := DigitValue(tail[j]);
        ValuePrefix(tail[..j], tail[..j + 1], j);
        WrapStep(Value(tail[..j], j), digit);
        partition := Wrap32(Wrap32(partition * 10) + digit);
      }
      assert tail[..|tail|] == tail;
      ok := topic != "";
      if !ok {
        EmptyTopicNotDenoted(key);
      }
      return;
    }
    return "", 0, false;
  }

  lemma NotDenoted(key: string, at: int, j: nat)
    requires LastColon(key, at) && at + 1 + j < |key| && !IsDigit(key[at + 1 + j])
    ensures forall t, p :: !Denotes(key, t, p)
  {
    var tail := key[at + 1..];
    assert tail[j] == key[at + 1 + j];
    assert !AllDigits(tail);
    forall other | LastColon(key, other) ensures other == at {
    }
  }

  lemma EmptyTopicNotDenoted(key: string)
    requires LastColon(key, 0)
    ensures forall t, p :: !Denotes(key, t, p)
  {
  }

  lemma WrapStep(value: nat, digit: int)
    ensures Wrap32(Wrap32(Wrap32(value) * 10) + digit) == Wrap32(10 * value + digit)
  {
    var a := (value + TWO_31) / TWO_32;
    assert Wrap32(value) == value - a * TWO_32;
    WrapMultiple(value * 10, 10 * a);
    var b := (value * 10 + TWO_31) / TWO_32;
    assert Wrap32(value * 10) == value * 10 - b * TWO_32;
    WrapMultiple(10 * value + digit, b);
  }

  lemma WrapMultiple(n: int, k: int)
    ensures Wrap32(n - k * TWO_32) == Wrap32(n)
  {
    var q, r := (n + TWO_31) / TWO_32, (n + TWO_31) % TWO_32;
    assert n - k * TWO_32 + TWO_31 == (q - k) * TWO_32 + r;
    DivMod(n - k * TWO_32 + TWO_31, q - k, r);
  }

  lemma DivMod(n: int, q: int, r: int)
    requires n == q * TWO_32 + r && 0 <= r < TWO_32
    ensures n % TWO_32 == r
  {
  }

  // ------------------------------------------------------------ round trips

  lemma DecimalHasNoColon(n: int)
    ensures Decimal(n) != "" && forall i | 0 <= i < |Decimal(n)| :: Decimal(n)[i] != ':'
  {
    DigitsDenote(if n < 0 then -n else n);
  }

  lemma KeyColon(topic: string, partition: int)
    ensures LastColon(CommitKey(topic, partition), |topic|)
    ensures CommitKey(topic, partition)[..|topic|] == topic
    ensures CommitKey(topic, partition)[|topic| + 1..] == Decimal(partition)
  {
    var key := CommitKey(topic, partition);
    DecimalHasNoColon(partition);
    assert key[|topic| + 1..] == Decimal(partition);
    forall i | |topic| < i < |key| ensures key[i] != ':' {
      assert key[i] == Decimal(partition)[i - |topic| - 1];
    }
  }

  /** Splitting inverts formatting exactly for nonempty topics, colons in them included, and
      partitions that are not negative. */
  lemma SplitInvertsKey(topic: string, partition: int, t: string, p: int)
    requires IsInt32(partition)
    ensures Denotes(CommitKey(topic, partition), t, p) <==> topic != "" && partition >= 0 && t == topic && p == partition
  {
    var key := CommitKey(topic, partition);
    KeyColon(topic, partition);
    if partition >= 0 {
      DigitsDenote(partition);
      assert Wrap32(partition) == partition;
    } else {
      assert key[|topic| + 1..][0] == '-';
    }
    forall at | LastColon(key, at) ensures at == |topic| {
    }
  }

  /** Distinct topic-partitions have distinct keys. */
  lemma KeysAreDistinct(topic: string, partition: int, t: string, p: int)
    requires CommitKey(topic, partition) == CommitKey(t, p)
    ensures topic == t && partition == p
  {
    KeyColon(topic, partition);
    KeyColon(t, p);
    assert |topic| == |t|;
    DecimalsAreDistinct(partition, p);
  }

  lemma DecimalSign(n: int)
    ensures Decimal(n) != "" && (Decimal(n)[0] == '-' <==> n < 0)
  {
    DigitsDenote(if n < 0 then -n else n);
  }

  lemma DecimalsAreDistinct(a: int, b: int)
    requires Decimal(a) == Decimal(b)
    ensures a == b
  {
    DecimalSign(a);
    DecimalSign(b);
    DigitsDenote(if a < 0 then -a else a);
    DigitsDenote(if b < 0 then -b else b);
    if a < 0 && b < 0 {
      assert Digits(-a) == Decimal(a)[1..] && Digits(-b) == Decimal(b)[1..];
    }
  }

  // --------------------------------------------------------------- registry

  class OrderedCommitManager {
    var committers: map<string, PartitionOrderedCommitter>

    /** No committer is registered under two keys. */
    ghost predicate Valid()
      reads this
    {
      forall k, l | k in committers && l in committers && committers[k] == committers[l] :: k == l
    }

    constructor ()
      ensures Valid() && committers == map[]
    {
      committers := map[];
    }

    /** The committer of a topic-partition: the registered one if there is one, a fresh empty one
        otherwise, and never that of another topic-partition. */
    method Get(topic: string, partition: int) returns (c: PartitionOrderedCommitter)
      requires Valid()
      modifies this
      ensures Valid() && CommitKey(topic, partition) in committers && c == committers[CommitKey(topic, partition)]
      ensures CommitKey(topic, partition) in old(committers) ==> committers == old(committers)
      ensures CommitKey(topic, partition) !in old(committers) ==> fresh(c) && c.State() == EMPTY
      ensures CommitKey(topic, partition) !in old(committers) ==> committers == old(committers)[CommitKey(topic, partition) := c]
      ensures forall t, p | (t, p) != (topic, partition) && CommitKey(t, p) in committers :: committers[CommitKey(t, p)] != c
    {
      var key := CommitKey(topic, partition);
      if key in committers {
        c := committers[key];
      } else {
        c := new PartitionOrderedCommitter();
        committers := committers[key := c];
      }
      forall t, p | (t, p) != (topic, partition) ensures CommitKey(t, p) != key {
        if CommitKey(t, p) == key {
          KeysAreDistinct(topic, partition, t, p);
        }
      }
    }
  }
}
