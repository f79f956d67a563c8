/** Ordered result pages over an order that may leave rows tied. */
module Paging {
  import opened Prelude
  import Ordering

  type Before<!T> = (T, T) -> bool

  predicate Tied<T>(before: Before<T>, a: T, b: T) {
    !before(a, b) && !before(b, a)
  }

  /** A strict order in which tied rows are interchangeable. */
  ghost predicate StrictWeak<T(!new)>(before: Before<T>) {
    && (forall a, b | before(a, b) :: !before(b, a))
    && (forall a, b, c | before(a, b) && before(b, c) :: before(a, c))
    && (forall a, b, c | Tied(before, a, b) && before(a, c) :: before(b, c))
    && (forall a, b, c | Tied(before, a, b) && before(c, a) :: before(c, b))
  }

  ghost predicate InOrder<T>(before: Before<T>, rows: seq<T>) {
    forall i, j | 0 <= i < j < |rows| :: !before(rows[j], rows[i])
  }

  /** The results the database may deliver: the matched rows in any order that respects `before`. */
  ghost predicate SortedResult<T>(before: Before<T>, matched: seq<T>, rows: seq<T>) {
    multiset(rows) == multiset(matched) && InOrder(before, rows)
  }

  /** LIMIT and OFFSET. */
  function Page<T>(rows: seq<T>, limit: nat, offset: nat): seq<T> {
    if offset >= |rows| then []
    else if |rows| - offset <= limit then rows[offset..]
    else rows[offset..offset + limit]
  }

  lemma SortedLength<T>(before: Before<T>, matched: seq<T>, rows: seq<T>)
    requires SortedResult(before, matched, rows)
    ensures |rows| == |matched|
  {
    assert |multiset(rows)| == |multiset(matched)|;
  }

  /** A page is as long as the limit allows: it depends on the count alone. */
  lemma PageLength<T>(before: Before<T>, matched: seq<T>, rows: seq<T>, limit: nat, offset: nat)
    requires SortedResult(before, matched, rows)
    ensures |Page(rows, limit, offset)| == Min(limit, Max(0, |matched| - offset))
  {
    SortedLength(before, matched, rows);
  }

  /** The first `n` consecutive pages. */
  function Pages<T>(rows: seq<T>, limit: nat, n: nat): seq<T> {
    if n == 0 then [] else Pages(rows, limit, n - 1) + Page(rows, limit, (n - 1) * limit)
  }

  lemma PageExtends<T>(rows: seq<T>, limit: nat, from: nat)
    ensures rows[..Min(from, |rows|)] + Page(rows, limit, from) == rows[..Min(from + limit, |rows|)]
  {
    if from < |rows| {
      var to := Min(from + limit, |rows|);
      assert Page(rows, limit, from) == rows[from..to];
      assert rows[..from] + rows[from..to] == rows[..to];
    }
  }

  /** Consecutive pages of one result repeat and skip nothing. */
  lemma {:induction false} PagesTile<T>(rows: seq<T>, limit: nat, n: nat)
    ensures 0 <= Min(n * limit, |rows|) <= |rows|
    ensures Pages(rows, limit, n) == rows[..Min(n * limit, |rows|)]
  {
    if n > 0 {
      PagesTile(rows, limit, n - 1);
      assert n * limit == (n - 1) * limit + limit;
      PageExtends(rows, limit, (n - 1) * limit);
    }
  }

  // ------------------------------------------------- when paging is stable

  /** Different rows are told apart by the order. */
  ghost predicate NoTies<T>(before: Before<T>, rows: seq<T>) {
    forall a, b | a in rows && b in rows && Tied(before, a, b) :: a == b
  }

  lemma {:induction false} UniqueWithoutTies<T(!new)>(before: Before<T>, a: seq<T>, b: seq<T>)
    requires StrictWeak(before) && InOrder(before, a) && InOrder(before, b)
    requires multiset(a) == multiset(b) && NoTies(before, a)
    ensures a == b
  {
    if a == [] {
      assert |multiset(b)| == 0;
    } else {
      assert |multiset(a)| == |multiset(b)|;
      HeadFirst(before, a, b);
      TailsAgree(a, b);
      TailKeeps(before, a);
      TailKeeps(before, b);
      UniqueWithoutTies(before, a[1..], b[1..]);
      assert a == [a[0]] + a[1..] && b == [b[0]] + b[1..];
    }
  }

  lemma TailsAgree<T>(a: seq<T>, b: seq<T>)
    requires a != [] && b != [] && a[0] == b[0] && multiset(a) == multiset(b)
    ensures multiset(a[1..]) == multiset(b[1..])
  {
    assert a == [a[0]] + a[1..] && b == [b[0]] + b[1..];
    assert multiset(a[1..]) == multiset(a) - multiset{a[0]};
    assert multiset(b[1..]) == multiset(b) - multiset{b[0]};
  }

  lemma TailKeeps<T>(before: Before<T>, a: seq<T>)
    requires InOrder(before, a) && a != []
    ensures InOrder(before, a[1..])
    ensures NoTies(before, a) ==> NoTies(before, a[1..])
  {
    assert forall x | x in a[1..] :: x in a;
  }

  lemma HeadFirst<T(!new)>(before: Before<T>, a: seq<T>, b: seq<T>)
    requires InOrder(before, a) && InOrder(before, b) && a != [] && b != []
    requires multiset(a) == multiset(b) && NoTies(before, a)
    ensures a[0] == b[0]
  {
    assert a[0] in multiset(b) && b[0] in multiset(a);
    var i :| 0 <= i < |a| && a[i] == b[0];
    var j :| 0 <= j < |b| && b[j] == a[0];
    assert i == 0 || !before(a[i], a[0]);
    assert j == 0 || !before(b[j], b[0]);
    if i > 0 && j > 0 {
      assert Tied(before, a[0], b[0]);
    }
  }

  lemma SwapTied<T(!new)>(before: Before<T>, rows: seq<T>, i: nat, j: nat) returns (other: seq<T>)
    requires StrictWeak(before) && InOrder(before, rows)
    requires i < j < |rows| && Tied(before, rows[i], rows[j]) && rows[i] != rows[j]
    ensures InOrder(before, other) && multiset(other) == multiset(rows) && other != rows
  {
    other := rows[i := rows[j]][j := rows[i]];
    assert other[i] != rows[i];
    forall k | 0 <= k < |rows| ensures Tied(before, other[k], rows[k]) {
    }
    forall m, n | 0 <= m < n < |other| ensures !before(other[n], other[m]) {
      assert !before(rows[n], rows[m]);
      assert Tied(before, other[m], rows[m]) && Tied(before, other[n], rows[n]);
    }
  }

  lemma SwapMembers<T(!new)>(before: Before<T>, rows: seq<T>, a: T, b: T) returns (other: seq<T>)
    requires StrictWeak(before) && InOrder(before, rows)
    requires a in rows && b in rows && Tied(before, a, b) && a != b
    ensures InOrder(before, other) && multiset(other) == multiset(rows) && other != rows
  {
    var i :| 0 <= i < |rows| && rows[i] == a;
    var j :| 0 <= j < |rows| && rows[j] == b;
    other := SwapTied(before, rows, if i < j then i else j, if i < j then j else i);
  }

  ghost predicate OnlyResult<T(!new)>(before: Before<T>, matched: seq<T>, rows: seq<T>) {
    forall other: seq<T> | SortedResult(before, matched, other) :: other == rows
  }

  /** The order determines the result, and with it every page, exactly when no two different
      matched rows are tied. */
  lemma StableIffNoTies<T(!new)>(before: Before<T>, matched: seq<T>, rows: seq<T>)
    requires StrictWeak(before) && SortedResult(before, matched, rows)
    ensures OnlyResult(before, matched, rows) <==> NoTies(before, matched)
  {
    SameMembers(matched, rows);
    if NoTies(before, matched) {
      forall other: seq<T> | SortedResult(before, matched, other) ensures other == rows {
        UniqueWithoutTies(before, rows, other);
      }
    } else {
      var a, b :| a in rows && b in rows && Tied(before, a, b) && a != b;
      var other := SwapMembers(before, rows, a, b);
      assert SortedResult(before, matched, other);
    }
  }

  lemma SameMembers<T>(a: seq<T>, b: seq<T>)
    requires multiset(a) == multiset(b)
    ensures forall x :: x in a <==> x in b
  {
    forall x ensures x in a <==> x in b {
      assert x in a <==> x in multiset(a);
    }
  }

  // --------------------------------------------------- building such orders

  function Then<T>(first: Before<T>, second: Before<T>): Before<T> {
    (a: T, b: T) => first(a, b) || (Tied(first, a, b) && second(a, b))
  }

  function Reversed<T>(before: Before<T>): Before<T> {
    (a: T, b: T) => before(b, a)
  }

  /** Breaking the ties of one order by another gives an order again. */
  lemma ThenIsOrder<T(!new)>(first: Before<T>, second: Before<T>)
    requires StrictWeak(first) && StrictWeak(second)
    ensures StrictWeak(Then(first, second))
    ensures forall a, b :: Tied(Then(first, second), a, b) <==> Tied(first, a, b) && Tied(second, a, b)
  {
  }

  lemma ReversedIsOrder<T(!new)>(before: Before<T>)
    requires StrictWeak(before)
    ensures StrictWeak(Reversed(before))
    ensures forall a, b :: Tied(Reversed(before), a, b) <==> Tied(before, a, b)
  {
  }

  function By<T, K>(less: (K, K) -> bool, key: T -> K): Before<T> {
    (a: T, b: T) => less(key(a), key(b))
  }

  /** Rows compared by a totally ordered key are tied when their keys are equal. */
  lemma ByIsOrder<T(!new), K(!new)>(less: (K, K) -> bool, key: T -> K)
    requires Ordering.StrictTotal(less)
    ensures StrictWeak(By(less, key))
    ensures forall a, b :: Tied(By(less, key), a, b) <==> key(a) == key(b)
  {
  }
}
