/** The NCCL straggler ratio: each rank's 95th percentile over the median of all ranks. */
module Stragglers {
  import opened StableSort

  /** A rank's process and its 95th percentile. */
  type Rank = (nat, nat)

  function P95(): Rank -> nat {
    (r: Rank) => r.1
  }

  function CountAbove(ranks: seq<Rank>, m: nat): nat {
    if ranks == [] then 0 else (if ranks[0].1 > m then 1 else 0) + CountAbove(ranks[1..], m)
  }

  function CountBelow(ranks: seq<Rank>, m: nat): nat {
    if ranks == [] then 0 else (if ranks[0].1 < m then 1 else 0) + CountBelow(ranks[1..], m)
  }

  /** A value of the list with at most half the ranks below it and fewer than half above it. */
  ghost predicate IsUpperMedian(ranks: seq<Rank>, m: nat) {
    && (exists r :: r in ranks && r.1 == m)
    && CountAbove(ranks, m) <= (|ranks| - 1) / 2
    && CountBelow(ranks, m) <= |ranks| / 2
  }

  lemma {:induction false} InsertKeepsCounts(x: Rank, s: seq<Rank>, m: nat)
    ensures CountAbove(Insert(x, s, P95()), m) == CountAbove([x] + s, m)
    ensures CountBelow(Insert(x, s, P95()), m) == CountBelow([x] + s, m)
  {
    assert ([x] + s)[1..] == s;
    if s == [] || x.1 <= s[0].1 {
    } else {
      InsertKeepsCounts(x, s[1..], m);
      assert ([x] + s[1..])[1..] == s[1..];
      assert ([s[0]] + Insert(x, s[1..], P95()))[1..] == Insert(x, s[1..], P95());
    }
  }

  lemma {:induction false} SortKeepsCounts(s: seq<Rank>, m: nat)
    ensures CountAbove(SortByKey(s, P95()), m) == CountAbove(s, m)
    ensures CountBelow(SortByKey(s, P95()), m) == CountBelow(s, m)
  {
    if s != [] {
      SortKeepsCounts(s[1..], m);
      InsertKeepsCounts(s[0], SortByKey(s[1..], P95()), m);
      assert ([s[0]] + SortByKey(s[1..], P95()))[1..] == SortByKey(s[1..], P95());
    }
  }

  /** Only elements from position `i` on can exceed what the first `i` do not, and dually. */
  lemma {:induction false} CountsFrom(s: seq<Rank>, i: nat, m: nat)
    requires i <= |s|
    ensures (forall j :: 0 <= j < i ==> s[j].1 <= m) ==> CountAbove(s, m) <= |s| - i
    ensures (forall j :: i <= j < |s| ==> s[j].1 >= m) ==> CountBelow(s, m) <= i
  {
    if s != [] {
      CountsFrom(s[1..], if i == 0 then 0 else i - 1, m);
    }
  }

  lemma MiddleOfSorted(s: seq<Rank>, mid: nat)
    requires SortedBy(s, P95()) && mid < |s|
    ensures CountAbove(s, s[mid].1) <= |s| - mid - 1 && CountBelow(s, s[mid].1) <= mid
  {
    forall j | 0 <= j < |s| ensures (j <= mid ==> s[j].1 <= s[mid].1) && (mid <= j ==> s[mid].1 <= s[j].1) {
      assert j < mid ==> P95()(s[j]) <= P95()(s[mid]);
      assert mid < j ==> P95()(s[mid]) <= P95()(s[j]);
    }
    CountsFrom(s, mid + 1, s[mid].1);
    CountsFrom(s, mid, s[mid].1);
  }

  lemma SameElements<T>(s: seq<T>, t: seq<T>, i: nat)
    requires multiset(s) == multiset(t) && i < |s|
    ensures s[i] in t
  {
    assert s[i] in multiset(s);
  }

  /** The middle of the sorted ranks is their upper median. */
  lemma MiddleIsMedian(ranks: seq<Rank>)
    requires ranks != []
    ensures IsUpperMedian(ranks, SortByKey(ranks, P95())[|ranks| / 2].1)
  {
    var sorted, mid := SortByKey(ranks, P95()), |ranks| / 2;
    SortIsStable(ranks, P95());
    MiddleOfSorted(sorted, mid);
    SortKeepsCounts(ranks, sorted[mid].1);
    SameElements(sorted, ranks, mid);
  }

  /** A published ratio, `p95 / median`. */
  datatype Ratio = Ratio(rank: Rank, median: nat)

  function Ranks(ratios: seq<Ratio>): seq<Rank> {
    seq(|ratios|, i requires 0 <= i < |ratios| => ratios[i].rank)
  }

  /** One ratio per rank, all over one median; fewer than half exceed one and some rank is at one. */
  method StragglerRatios(ranks: seq<Rank>) returns (ratios: seq<Ratio>)
    ensures ratios == [] <==> |ranks| < 2 || IsUpperMedian(ranks, 0)
    ensures ratios != [] ==> multiset(Ranks(ratios)) == multiset(ranks)
    ensures ratios != [] ==> exists m :: m > 0 && IsUpperMedian(ranks, m) && forall r :: r in ratios ==> r.median == m
  {
    ratios := [];
    if |ranks| < 2 {
      return;
    }
    var sorted := SortByKey(ranks, P95());
    SortIsStable(ranks, P95());
    MiddleIsMedian(ranks);
    var median := sorted[|sorted| / 2].1;
    if median == 0 {
      return;
    }
    for i := 0 to |sorted|
      invariant |ratios| == i && forall j :: 0 <= j < i ==> ratios[j] == Ratio(sorted[j], median)
    {
      ratios := ratios + [Ratio(sorted[i], median)];
    }
    assert Ranks(ratios) == sorted;
    MedianUnique(ranks, median, 0);
  }

  lemma {:induction false} CountsTogether(ranks: seq<Rank>, m: nat, n: nat)
    requires m < n
    ensures CountAbove(ranks, m) + CountBelow(ranks, n) >= |ranks|
  {
    if ranks != [] {
      CountsTogether(ranks[1..], m, n);
    }
  }

  lemma MedianUnique(ranks: seq<Rank>, m: nat, n: nat)
    requires IsUpperMedian(ranks, m)
    ensures IsUpperMedian(ranks, n) ==> m == n
  {
    if m < n {
      CountsTogether(ranks, m, n);
    } else if n < m {
      CountsTogether(ranks, n, m);
    }
  }

  /** Two ranks never produce a straggler. */
  lemma TwoRanksNoStraggler(ranks: seq<Rank>, m: nat, r: Rank)
    requires |ranks| == 2 && IsUpperMedian(ranks, m) && r in ranks
    ensures r.1 <= m
  {
    assert ranks == [ranks[0], ranks[1]] && ranks[1..] == [ranks[1]];
    assert CountAbove(ranks, m) >= CountAbove([ranks[1]], m);
  }
}
