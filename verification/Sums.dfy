/** Finite sums, the widths of the machine integers, and congruence, as the other modules use them. */
module Sums {

  const U32: nat := 0x1_0000_0000
  const U64: nat := 0x1_0000_0000_0000_0000

  /** What a `__u32` or a `__u64` cell keeps of an unbounded result. */
  function Wrap32(x: nat): (r: nat)
    ensures r < U32
    ensures x < U32 ==> r == x
  {
    x % U32
  }

  function Wrap64(x: nat): (r: nat)
    ensures r < U64
    ensures x < U64 ==> r == x
  {
    x % U64
  }

  /** `x` is a multiple of `m`; for `m == 0` this says `x == 0`, so one statement covers
      exact equations (`m == 0`) and equations between wrapping integers. */
  ghost predicate Divides(m: nat, x: int) {
    exists j: int :: x == m * j
  }

  lemma DividesZero(m: nat)
    ensures Divides(m, 0)
  {
    assert 0 == m * 0;
  }

  lemma DividesSum(m: nat, x: int, y: int)
    requires Divides(m, x) && Divides(m, y)
    ensures Divides(m, x + y) && Divides(m, x - y)
  {
    var i: int :| x == m * i;
    var j: int :| y == m * j;
    assert x + y == m * (i + j);
    assert x - y == m * (i - j);
  }

  lemma CongruentTrans(m: nat, x: int, y: int, z: int)
    requires Divides(m, x - y) && Divides(m, y - z)
    ensures Divides(m, x - z)
  {
    DividesSum(m, x - y, y - z);
  }

  lemma SmallMultiple(d: int, k: int)
    requires -d < d * k < d
    ensures k == 0
  {
  }

  lemma QuotientIs(x: nat, d: nat, q: nat, m: nat)
    requires m < d && x == d * q + m
    ensures x / d == q && x % d == m
  {
    assert d * (x / d - q) == m - x % d;
    SmallMultiple(d, x / d - q);
  }

  /** Sum of `f` over a sequence. */
  function SumOver<T>(s: seq<T>, f: T -> int): int {
    if s == [] then 0 else SumOver(s[..|s| - 1], f) + f(s[|s| - 1])
  }

  lemma SumOverAppend<T>(s: seq<T>, x: T, f: T -> int)
    ensures SumOver(s + [x], f) == SumOver(s, f) + f(x)
  {
    assert (s + [x])[..|s|] == s;
  }

  lemma {:induction false} SumOverConcat<T>(s: seq<T>, t: seq<T>, f: T -> int)
    ensures SumOver(s + t, f) == SumOver(s, f) + SumOver(t, f)
  {
    if t == [] {
      assert s + t == s;
    } else {
      SumOverConcat(s, t[..|t| - 1], f);
      assert (s + t)[..|s + t| - 1] == s + t[..|t| - 1];
    }
  }

  lemma {:induction false} SumOverUpdate<T>(s: seq<T>, i: nat, x: T, f: T -> int)
    requires i < |s|
    ensures SumOver(s[i := x], f) == SumOver(s, f) - f(s[i]) + f(x)
  {
    var n := |s| - 1;
    if i == n {
      assert s[i := x][..n] == s[..n];
    } else {
      assert s[i := x][..n] == s[..n][i := x];
      SumOverUpdate(s[..n], i, x, f);
    }
  }

  lemma {:induction false} SumOverSame<T>(s: seq<T>, f: T -> int, g: T -> int)
    requires forall i :: 0 <= i < |s| ==> f(s[i]) == g(s[i])
    ensures SumOver(s, f) == SumOver(s, g)
  {
    if s != [] {
      SumOverSame(s[..|s| - 1], f, g);
    }
  }

  lemma {:induction false} SumOverZero<T>(s: seq<T>, f: T -> int)
    requires forall i :: 0 <= i < |s| ==> f(s[i]) == 0
    ensures SumOver(s, f) == 0
  {
    if s != [] {
      SumOverZero(s[..|s| - 1], f);
    }
  }

  /** Sum of `f` over a finite set. */
  ghost function SumSet<T(!new)>(s: set<T>, f: T -> int): int {
    if s == {} then 0
    else
      var x :| x in s;
      f(x) + SumSet(s - {x}, f)
  }

  /** The sum does not depend on the order in which elements are taken. */
  lemma {:induction false} SumSetPick<T(!new)>(s: set<T>, x: T, f: T -> int)
    requires x in s
    ensures SumSet(s, f) == f(x) + SumSet(s - {x}, f)
    decreases s
  {
    var y :| y in s && SumSet(s, f) == f(y) + SumSet(s - {y}, f);
    if y != x {
      SumSetPick(s - {y}, x, f);
      SumSetPick(s - {x}, y, f);
      assert s - {y} - {x} == s - {x} - {y};
    }
  }

  lemma {:induction false} SumSetSame<T(!new)>(s: set<T>, f: T -> int, g: T -> int)
    requires forall x :: x in s ==> f(x) == g(x)
    ensures SumSet(s, f) == SumSet(s, g)
    decreases s
  {
    if s != {} {
      var x :| x in s;
      SumSetPick(s, x, f);
      SumSetPick(s, x, g);
      SumSetSame(s - {x}, f, g);
    }
  }

  /** Changing one summand, or adding one, changes the sum by the difference. */
  lemma SumSetChange<T(!new)>(s: set<T>, x: T, f: T -> int, g: T -> int)
    requires forall y :: y in s && y != x ==> f(y) == g(y)
    ensures SumSet(s + {x}, g) == SumSet(s, f) + g(x) - (if x in s then f(x) else 0)
  {
    SumSetPick(s + {x}, x, g);
    assert s + {x} - {x} == s - {x};
    SumSetSame(s - {x}, f, g);
    if x in s {
      SumSetPick(s, x, f);
    } else {
      assert s - {x} == s;
    }
  }

  /** Removing one element, the other summands unchanged. */
  lemma SumSetDrop<T(!new)>(s: set<T>, x: T, f: T -> int, g: T -> int)
    requires x in s
    requires forall y :: y in s && y != x ==> f(y) == g(y)
    ensures SumSet(s - {x}, g) == SumSet(s, f) - f(x)
  {
    SumSetPick(s, x, f);
    SumSetSame(s - {x}, f, g);
  }
}
