/** Stable sorting by a key, as the standard library's `sort_by_key` promises it: the result is ordered
    by key, and elements with the same key keep their order. */
module StableSort {
  import opened Collections

  ghost predicate SortedBy<T>(s: seq<T>, key: T -> nat) {
    forall i, j :: 0 <= i < j < |s| ==> key(s[i]) <= key(s[j])
  }

  /** The elements with key `k`, in order. */
  function Matching<T>(s: seq<T>, key: T -> nat, k: nat): seq<T> {
    if s == [] then [] else (if key(s[0]) == k then [s[0]] else []) + Matching(s[1..], key, k)
  }

  /** Puts `x` before the first element with a key no smaller. */
  function Insert<T>(x: T, s: seq<T>, key: T -> nat): (r: seq<T>)
    ensures |r| == |s| + 1
  {
    if s == [] || key(x) <= key(s[0]) then [x] + s else [s[0]] + Insert(x, s[1..], key)
  }

  function SortByKey<T>(s: seq<T>, key: T -> nat): (r: seq<T>)
    ensures |r| == |s|
  {
    if s == [] then [] else Insert(s[0], SortByKey(s[1..], key), key)
  }

  lemma {:induction false} InsertSorted<T>(x: T, s: seq<T>, key: T -> nat)
    requires SortedBy(s, key)
    ensures SortedBy(Insert(x, s, key), key)
  {
    if s == [] || key(x) <= key(s[0]) {
    } else {
      var rest := Insert(x, s[1..], key);
      InsertSorted(x, s[1..], key);
      InsertIn(x, s[1..], key);
      forall j | 0 <= j < |rest| ensures key(s[0]) <= key(rest[j]) {
        assert rest[j] in rest;
      }
    }
  }

  lemma {:induction false} InsertIn<T>(x: T, s: seq<T>, key: T -> nat)
    ensures forall y :: y in Insert(x, s, key) ==> y == x || y in s
  {
    if s == [] || key(x) <= key(s[0]) {
    } else {
      InsertIn(x, s[1..], key);
    }
  }

  lemma {:induction false} InsertSame<T>(x: T, s: seq<T>, key: T -> nat)
    ensures multiset(Insert(x, s, key)) == multiset(s) + multiset{x}
  {
    if s == [] || key(x) <= key(s[0]) {
    } else {
      InsertSame(x, s[1..], key);
      assert s == [s[0]] + s[1..];
    }
  }

  lemma {:induction false} InsertMatching<T>(x: T, s: seq<T>, key: T -> nat, k: nat)
    ensures Matching(Insert(x, s, key), key, k) == Matching([x] + s, key, k)
  {
    assert ([x] + s)[1..] == s;
    if s == [] || key(x) <= key(s[0]) {
    } else {
      InsertMatching(x, s[1..], key, k);
      assert ([x] + s[1..])[1..] == s[1..];
      assert ([s[0]] + Insert(x, s[1..], key))[1..] == Insert(x, s[1..], key);
    }
  }

  lemma {:induction false} SortOrders<T>(s: seq<T>, key: T -> nat)
    ensures SortedBy(SortByKey(s, key), key)
  {
    if s != [] {
      SortOrders(s[1..], key);
      InsertSorted(s[0], SortByKey(s[1..], key), key);
    }
  }

  lemma {:induction false} SortPermutes<T>(s: seq<T>, key: T -> nat)
    ensures multiset(SortByKey(s, key)) == multiset(s)
  {
    if s != [] {
      SortPermutes(s[1..], key);
      InsertSame(s[0], SortByKey(s[1..], key), key);
      assert s == [s[0]] + s[1..];
    }
  }

  lemma {:induction false} SortMatching<T>(s: seq<T>, key: T -> nat, k: nat)
    ensures Matching(SortByKey(s, key), key, k) == Matching(s, key, k)
  {
    if s != [] {
      var rest := SortByKey(s[1..], key);
      SortMatching(s[1..], key, k);
      InsertMatching(s[0], rest, key, k);
      assert ([s[0]] + rest)[1..] == rest;
    }
  }

  /** Ordered, stable, and a permutation. */
  lemma SortIsStable<T>(s: seq<T>, key: T -> nat)
    ensures SortedBy(SortByKey(s, key), key)
    ensures forall k :: Matching(SortByKey(s, key), key, k) == Matching(s, key, k)
    ensures multiset(SortByKey(s, key)) == multiset(s)
  {
    SortOrders(s, key);
    SortPermutes(s, key);
    forall k ensures Matching(SortByKey(s, key), key, k) == Matching(s, key, k) {
      SortMatching(s, key, k);
    }
  }

  lemma {:induction false} MatchingAcross<T>(a: seq<T>, b: seq<T>, key: T -> nat, k: nat)
    ensures Matching(a + b, key, k) == Matching(a, key, k) + Matching(b, key, k)
  {
    if a == [] {
      assert a + b == b;
    } else {
      MatchingAcross(a[1..], b, key, k);
      assert (a + b)[0] == a[0] && (a + b)[1..] == a[1..] + b;
      var first := if key(a[0]) == k then [a[0]] else [];
      Associate(first, Matching(a[1..], key, k), Matching(b, key, k));
    }
  }

  lemma {:induction false} MatchingNone<T>(s: seq<T>, key: T -> nat, k: nat)
    ensures Matching(s, key, k) == [] <==> forall i :: 0 <= i < |s| ==> key(s[i]) != k
  {
    if s != [] {
      MatchingNone(s[1..], key, k);
    }
  }
}
