/** Strict total orders, and the one strictly sorted sequence of a finite set. */
module Ordering {

  /** Go's order on strings: bytewise lexicographic, shorter first when one is a prefix. */
  predicate StringLess(a: string, b: string) {
    if b == "" then false
    else if a == "" then true
    else if a[0] != b[0] then a[0] < b[0]
    else StringLess(a[1..], b[1..])
  }

  ghost predicate StrictTotal<K(!new)>(less: (K, K) -> bool) {
    && (forall a :: !less(a, a))
    && (forall a, b, c :: less(a, b) && less(b, c) ==> less(a, c))
    && (forall a, b :: a == b || less(a, b) || less(b, a))
  }

  ghost predicate Sorted<K>(less: (K, K) -> bool, s: seq<K>) {
    forall i, j | 0 <= i < j < |s| :: less(s[i], s[j])
  }

  lemma {:induction false} StringLessTransitive(a: string, b: string, c: string)
    requires StringLess(a, b) && StringLess(b, c)
    ensures StringLess(a, c)
  {
    if a != "" && a[0] == b[0] == c[0] {
      StringLessTransitive(a[1..], b[1..], c[1..]);
    }
  }

  lemma {:induction false} StringLessTotal(a: string, b: string)
    ensures a == b || StringLess(a, b) || StringLess(b, a)
    ensures !(StringLess(a, b) && StringLess(b, a))
    ensures a == b ==> !StringLess(a, b)
  {
    if a != "" && b != "" && a[0] == b[0] {
      StringLessTotal(a[1..], b[1..]);
      assert a == [a[0]] + a[1..] && b == [b[0]] + b[1..];
    }
  }

  /** `a` comes before `b` exactly if it is a proper prefix of it, or has the smaller character where
      they first differ. */
  lemma {:induction false} StringLessMeans(a: string, b: string)
    ensures StringLess(a, b) <==> (a != b && a <= b) || exists i | 0 <= i < |a| && i < |b| :: a[..i] == b[..i] && a[i] < b[i]
  {
    if a != "" && b != "" {
      var x, y := a[1..], b[1..];
      assert a == [a[0]] + x && b == [b[0]] + y;
      if a[0] == b[0] {
        StringLessMeans(x, y);
        forall i | 0 <= i < |x| && i < |y| ensures x[..i] == y[..i] <==> a[..i + 1] == b[..i + 1] {
          assert a[..i + 1] == [a[0]] + x[..i] && b[..i + 1] == [b[0]] + y[..i];
          assert a[..i + 1][1..] == x[..i] && b[..i + 1][1..] == y[..i];
        }
        FirstDifferenceShifts(a, b, x, y);
      } else {
        assert a[..0] == b[..0];
        forall i | 0 < i < |a| && i < |b| ensures a[..i] != b[..i] {
          assert a[..i][0] == a[0] && b[..i][0] == b[0];
        }
      }
    }
  }

  lemma FirstDifferenceShifts(a: string, b: string, x: string, y: string)
    requires a != "" && b != "" && a[0] == b[0] && x == a[1..] && y == b[1..]
    requires forall i | 0 <= i < |x| && i < |y| :: x[..i] == y[..i] <==> a[..i + 1] == b[..i + 1]
    ensures (a != b && a <= b) <==> (x != y && x <= y)
    ensures (exists i | 0 <= i < |a| && i < |b| :: a[..i] == b[..i] && a[i] < b[i]) <==>
              exists i | 0 <= i < |x| && i < |y| :: x[..i] == y[..i] && x[i] < y[i]
  {
    assert a == [a[0]] + x && b == [b[0]] + y;
    if i :| 0 <= i < |a| && i < |b| && a[..i] == b[..i] && a[i] < b[i] {
      assert i > 0 && x[i - 1] == a[i] && y[i - 1] == b[i];
    }
    if i :| 0 <= i < |x| && i < |y| && x[..i] == y[..i] && x[i] < y[i] {
      assert a[i + 1] == x[i] && b[i + 1] == y[i];
    }
  }

  lemma StringOrder()
    ensures StrictTotal(StringLess)
  {
    forall a ensures !StringLess(a, a) { StringLessTotal(a, a); }
    forall a, b, c | StringLess(a, b) && StringLess(b, c) ensures StringLess(a, c) {
      StringLessTransitive(a, b, c);
    }
    forall a, b ensures a == b || StringLess(a, b) || StringLess(b, a) { StringLessTotal(a, b); }
  }

  /** Insertion into a strictly sorted sequence. */
  function Insert<K>(less: (K, K) -> bool, s: seq<K>, x: K): seq<K> {
    if s == [] || less(x, s[0]) then [x] + s else [s[0]] + Insert(less, s[1..], x)
  }

  lemma {:induction false} InsertMembers<K>(less: (K, K) -> bool, s: seq<K>, x: K)
    ensures forall k :: k in Insert(less, s, x) <==> k == x || k in s
  {
    if s != [] && !less(x, s[0]) {
      InsertMembers(less, s[1..], x);
      assert s == [s[0]] + s[1..];
    }
  }

  lemma {:induction false} InsertSorted<K(!new)>(less: (K, K) -> bool, s: seq<K>, x: K)
    requires StrictTotal(less) && Sorted(less, s) && x !in s
    ensures Sorted(less, Insert(less, s, x))
  {
    if s != [] {
      if less(x, s[0]) {
        PrependSorted(less, x, s);
      } else {
        var rest := s[1..];
        assert Sorted(less, rest);
        InsertSorted(less, rest, x);
        InsertMembers(less, rest, x);
        assert less(s[0], x);
        assert forall k | k in rest :: less(s[0], k);
        AboveSorted(less, s[0], Insert(less, rest, x));
      }
    }
  }

  lemma PrependSorted<K(!new)>(less: (K, K) -> bool, x: K, s: seq<K>)
    requires StrictTotal(less) && Sorted(less, s) && s != [] && less(x, s[0])
    ensures Sorted(less, [x] + s)
  {
    forall k | k in s ensures less(x, k) {
      var i :| 0 <= i < |s| && s[i] == k;
      assert i == 0 || less(s[0], s[i]);
    }
    AboveSorted(less, x, s);
  }

  lemma AboveSorted<K>(less: (K, K) -> bool, x: K, s: seq<K>)
    requires Sorted(less, s)
    requires forall k | k in s :: less(x, k)
    ensures Sorted(less, [x] + s)
  {
    var all := [x] + s;
    forall i, j | 0 <= i < j < |all| ensures less(all[i], all[j]) {
      assert all[j] == s[j - 1];
    }
  }

  /** Two strictly sorted sequences with the same members are the same sequence. */
  lemma {:induction false} SortedUnique<K(!new)>(less: (K, K) -> bool, a: seq<K>, b: seq<K>)
    requires StrictTotal(less) && Sorted(less, a) && Sorted(less, b)
    requires forall k :: k in a <==> k in b
    ensures a == b
  {
    if a == [] || b == [] {
      EmptyMembers(a, b);
      EmptyMembers(b, a);
    } else {
      SameHead(less, a, b);
      SortedTail(less, a);
      SortedTail(less, b);
      SortedUnique(less, a[1..], b[1..]);
      assert a == [a[0]] + a[1..] && b == [b[0]] + b[1..];
    }
  }

  lemma EmptyMembers<K>(a: seq<K>, b: seq<K>)
    requires forall k | k in a :: k in b
    ensures a != [] ==> b != []
  {
    if a != [] {
      assert a[0] in b;
    }
  }

  lemma HeadLeast<K>(less: (K, K) -> bool, s: seq<K>, k: K)
    requires Sorted(less, s) && k in s
    ensures k == s[0] || less(s[0], k)
  {
    var i :| 0 <= i < |s| && s[i] == k;
    if i > 0 {
      assert less(s[0], s[i]);
    }
  }

  lemma SameHead<K(!new)>(less: (K, K) -> bool, a: seq<K>, b: seq<K>)
    requires StrictTotal(less) && Sorted(less, a) && Sorted(less, b) && a != [] && b != []
    requires forall k :: k in a <==> k in b
    ensures a[0] == b[0]
  {
    assert a[0] in b && b[0] in a;
    HeadLeast(less, b, a[0]);
    HeadLeast(less, a, b[0]);
  }

  lemma SortedTail<K(!new)>(less: (K, K) -> bool, a: seq<K>)
    requires StrictTotal(less) && Sorted(less, a) && a != []
    ensures Sorted(less, a[1..])
    ensures forall k :: k in a[1..] <==> k in a && k != a[0]
  {
    assert a == [a[0]] + a[1..];
    forall k | k in a[1..] ensures k != a[0] {
      var i :| 0 <= i < |a[1..]| && a[1..][i] == k;
      assert less(a[0], a[i + 1]);
    }
  }

  /** The strictly sorted sequence of a set. */
  ghost function SortedSeq<K(!new)>(less: (K, K) -> bool, keys: set<K>): (s: seq<K>)
    requires StrictTotal(less)
    ensures Sorted(less, s)
    ensures forall k :: k in s <==> k in keys
  {
    if keys == {} then []
    else
      var x :| x in keys;
      var rest := SortedSeq(less, keys - {x});
      InsertSorted(less, rest, x);
      InsertMembers(less, rest, x);
      Insert(less, rest, x)
  }

  /** Keys gathered from a map in an arbitrary order and then sorted: the order in which the
      map was traversed does not show in the result. */
  method SortKeys<K(==, !new)>(less: (K, K) -> bool, keys: set<K>) returns (s: seq<K>)
    requires StrictTotal(less)
    ensures s == SortedSeq(less, keys)
  {
    s := [];
    var rest := keys;
    while rest != {}
      invariant rest <= keys
      invariant Sorted(less, s)
      invariant forall k :: k in s <==> k in keys && k !in rest
      decreases rest
    {
      var k :| k in rest;
      InsertSorted(less, s, k);
      InsertMembers(less, s, k);
      s := Insert(less, s, k);
      rest := rest - {k};
    }
    SortedUnique(less, s, SortedSeq(less, keys));
  }

  ghost function SortedStrings(keys: set<string>): (s: seq<string>)
    ensures forall k :: k in s <==> k in keys
  {
    StringOrder();
    SortedSeq(StringLess, keys)
  }

  lemma SortedStringsIncrease(keys: set<string>)
    ensures Sorted(StringLess, SortedStrings(keys))
  {
    StringOrder();
  }

  method SortStrings(keys: set<string>) returns (s: seq<string>)
    ensures s == SortedStrings(keys)
  {
    StringOrder();
    s := SortKeys(StringLess, keys);
  }
}
