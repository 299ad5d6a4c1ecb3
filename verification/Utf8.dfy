/** Cutting a UTF-8 string to a byte limit. Well-formedness follows section 4 of RFC 3629. */
module Utf8 {

  type Byte = x: nat | x < 256

  predicate Tail(b: Byte) {
    0x80 <= b <= 0xBF
  }

  predicate Tails(s: seq<Byte>, n: nat) {
    n < |s| && forall i :: 2 <= i <= n ==> Tail(s[i])
  }

  /** The length of the character a string begins with, 0 when it begins with none. */
  function Width(s: seq<Byte>): (n: nat)
    ensures n <= 4 && n <= |s|
    ensures n > 0 ==> !Tail(s[0]) && forall i :: 1 <= i < n ==> Tail(s[i])
  {
    if |s| == 0 then 0
    else if s[0] <= 0x7F then 1
    else if |s| == 1 then 0
    else if 0xC2 <= s[0] <= 0xDF && Tail(s[1]) then 2
    else if Tails(s, 2) && Second3(s[0], s[1]) then 3
    else if Tails(s, 3) && Second4(s[0], s[1]) then 4
    else 0
  }

  /** The first two bytes of three- and four-byte characters. */
  predicate Second3(a: Byte, b: Byte) {
    || (a == 0xE0 && 0xA0 <= b <= 0xBF)
    || (0xE1 <= a <= 0xEC && Tail(b))
    || (a == 0xED && 0x80 <= b <= 0x9F)
    || (0xEE <= a <= 0xEF && Tail(b))
  }

  predicate Second4(a: Byte, b: Byte) {
    || (a == 0xF0 && 0x90 <= b <= 0xBF)
    || (0xF1 <= a <= 0xF3 && Tail(b))
    || (a == 0xF4 && 0x80 <= b <= 0x8F)
  }

  predicate WellFormed(s: seq<Byte>)
    decreases |s|
  {
    s == [] || (Width(s) > 0 && WellFormed(s[Width(s)..]))
  }

  /** `is_char_boundary`. */
  predicate IsBoundary(s: seq<Byte>, i: nat) {
    i == 0 || i == |s| || (i < |s| && !Tail(s[i]))
  }

  lemma WidthOfPrefix(s: seq<Byte>, i: nat)
    requires i <= |s| && Width(s) > 0
    ensures Width(s[..i]) == if i < Width(s) then 0 else Width(s)
  {
  }

  /** The boundaries of a well-formed string are the ends of its well-formed prefixes. */
  lemma {:induction false} BoundaryIff(s: seq<Byte>, i: nat)
    requires WellFormed(s) && i <= |s|
    ensures WellFormed(s[..i]) <==> IsBoundary(s, i)
    decreases |s|
  {
    if i > 0 {
      var n := Width(s);
      WidthOfPrefix(s, i);
      if i >= n {
        assert s[..i][n..] == s[n..][..i - n];
        BoundaryIff(s[n..], i - n);
      }
    }
  }

  /** Every position has a boundary at most three bytes below it. */
  lemma {:induction false} BoundaryNear(s: seq<Byte>, i: nat) returns (j: nat)
    requires WellFormed(s) && i <= |s|
    ensures j <= i <= j + 3 && IsBoundary(s, j)
    decreases |s|
  {
    if i == 0 {
      return 0;
    }
    var n := Width(s);
    if i < n {
      return 0;
    }
    j := BoundaryNear(s[n..], i - n);
    j := j + n;
  }

  /** The longest well-formed prefix within the limit, at most three bytes short of it. */
  method Truncate(s: seq<Byte>, limit: nat) returns (r: seq<Byte>)
    requires WellFormed(s)
    ensures r <= s && |r| <= limit && WellFormed(r)
    ensures forall k :: |r| < k <= limit && k <= |s| ==> !WellFormed(s[..k])
    ensures if |s| <= limit then r == s else |r| + 3 >= limit
  {
    if |s| <= limit {
      return s;
    }
    ghost var near := BoundaryNear(s, limit);
    var end := limit;
    while end > 0 && !IsBoundary(s, end)
      invariant near <= end <= limit
      invariant forall k :: end < k <= limit ==> !IsBoundary(s, k)
    {
      end := end - 1;
    }
    forall k | end <= k <= limit ensures WellFormed(s[..k]) <==> IsBoundary(s, k) {
      BoundaryIff(s, k);
    }
    r := s[..end];
  }
}
