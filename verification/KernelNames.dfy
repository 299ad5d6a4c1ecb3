/** Normalising an ASCII kernel name: the longest identifier of a mangled name, without template
    arguments, parameters and a numeric suffix, cut to 64 bytes. */
module KernelNames {
  import opened Collections
  import opened Sums
  import opened Utf8

  const LIMIT: nat := 64

  ghost predicate Ascii(s: string) {
    forall i :: 0 <= i < |s| ==> s[i] as int < 128
  }

  predicate IsDigit(c: char) {
    '0' <= c <= '9'
  }

  predicate IsWord(c: char) {
    IsDigit(c) || 'a' <= c <= 'z' || 'A' <= c <= 'Z' || c == '_'
  }

  predicate AllDigits(s: string) {
    forall i :: 0 <= i < |s| ==> IsDigit(s[i])
  }

  predicate AllWord(s: string) {
    forall i :: 0 <= i < |s| ==> IsWord(s[i])
  }

  // ----- mangled names

  /** The value of a string of digits. */
  function Value(digits: string): nat
    requires AllDigits(digits)
  {
    if digits == "" then 0
    else Value(digits[..|digits| - 1]) * 10 + (digits[|digits| - 1] as int - '0' as int)
  }

  /** Where the digits that start at `i` end. */
  function DigitsEnd(name: string, i: nat): (e: nat)
    requires i <= |name|
    ensures i <= e <= |name| && AllDigits(name[i..e])
    ensures e < |name| ==> !IsDigit(name[e])
    ensures i < |name| && IsDigit(name[i]) ==> i < e
    decreases |name| - i
  {
    if i < |name| && IsDigit(name[i]) then
      var e := DigitsEnd(name, i + 1);
      assert name[i..e] == [name[i]] + name[i + 1..e];
      e
    else i
  }

  /** A length prefix: where its digits end, and their value. */
  datatype Prefix = Prefix(end: nat, value: nat)

  /** The prefix announces an identifier that the name is long enough to hold. */
  predicate Fits(name: string, p: Prefix) {
    p.value > 0 && p.end + p.value <= |name|
  }

  /** The length prefixes the scan meets from `i` on: it jumps over an identifier that fits, and over
      one character after a number that announces none. */
  function Prefixes(name: string, i: nat): seq<Prefix>
    decreases |name| - i
  {
    if i >= |name| then []
    else if IsDigit(name[i]) then
      var e := DigitsEnd(name, i);
      var p := Prefix(e, Value(name[i..e]));
      [p] + Prefixes(name, After(name, p))
    else Prefixes(name, i + 1)
  }

  /** The identifier a prefix announces, when it fits and is made of word characters only. */
  function WordOf(name: string, p: Prefix): (r: string)
    ensures AllWord(r)
  {
    if Fits(name, p) && AllWord(name[p.end..p.end + p.value]) then name[p.end..p.end + p.value] else ""
  }

  function Words(name: string, prefixes: seq<Prefix>): seq<string> {
    seq(|prefixes|, i requires 0 <= i < |prefixes| => WordOf(name, prefixes[i]))
  }

  /** The first longest of some words. */
  function Longest(words: seq<string>): string {
    if words == [] then ""
    else
      var best, word := Longest(words[..|words| - 1]), words[|words| - 1];
      if |word| > |best| then word else best
  }

  predicate Mangled(name: string) {
    |name| >= 2 && name[0] == '_' && name[1] == 'Z'
  }

  /** The number fits 64 bits, but not after adding its own position. */
  predicate Overflows(p: Prefix) {
    p.value < U64 <= p.end + p.value
  }

  /** Some length prefix the scan meets overflows. */
  ghost predicate Overflowing(raw: string) {
    Mangled(raw) && !NoneOverflows(Prefixes(raw, 2))
  }

  function Demangled(raw: string): string {
    var best := if Mangled(raw) then Longest(Words(raw, Prefixes(raw, 2))) else "";
    if best != "" then best else raw
  }

  datatype Outcome = Panic | Done(name: string)

  lemma LongestSnoc(name: string, met: seq<Prefix>, p: Prefix)
    ensures var best := Longest(Words(name, met));
            Longest(Words(name, met + [p])) == if |WordOf(name, p)| > |best| then WordOf(name, p) else best
  {
    assert Words(name, met + [p]) == Words(name, met) + [WordOf(name, p)];
    assert (Words(name, met) + [WordOf(name, p)])[..|met|] == Words(name, met);
  }

  /** One number of the scan: `parse` fails from 2^64 on and the sum wraps, so that an overflowing
      prefix asks for a slice that ends before it starts. */
  method TakeIdent(name: string, start: nat, end: nat, best: string) returns (r: Outcome, next: nat)
    requires start < end <= |name| < U64 && AllDigits(name[start..end])
    ensures var p := Prefix(end, Value(name[start..end]));
            && (r.Panic? <==> Overflows(p))
            && (r.Done? ==>
                  && r.name == (if |WordOf(name, p)| > |best| then WordOf(name, p) else best)
                  && next == After(name, p))
  {
    var value := Value(name[start..end]);
    var len := if value < U64 then value else 0;
    var sum := Wrap64(end + len);
    r, next := Done(best), end + 1;
    if len > 0 && sum <= |name| {
      if sum < end {
        return Panic, 0;
      }
      var ident := name[end..sum];
      if |ident| > |best| && AllWord(ident) {
        r := Done(ident);
      }
      next := sum;
    }
  }

  method SkipDigits(name: string, start: nat) returns (end: nat)
    requires start <= |name|
    ensures end == DigitsEnd(name, start)
  {
    end := start;
    while end < |name| && IsDigit(name[end])
      invariant start <= end <= |name| && DigitsEnd(name, start) == DigitsEnd(name, end)
    {
      end := end + 1;
    }
  }

  function PrefixAt(name: string, i: nat): Prefix
    requires i <= |name|
  {
    Prefix(DigitsEnd(name, i), Value(name[i..DigitsEnd(name, i)]))
  }

  function After(name: string, p: Prefix): nat {
    if Fits(name, p) then p.end + p.value else p.end + 1
  }

  ghost predicate NoneOverflows(prefixes: seq<Prefix>) {
    forall i :: 0 <= i < |prefixes| ==> !Overflows(prefixes[i])
  }

  lemma PrefixesUnfold(name: string, i: nat)
    requires i < |name| && IsDigit(name[i])
    ensures Prefixes(name, i) == [PrefixAt(name, i)] + Prefixes(name, After(name, PrefixAt(name, i)))
  {
  }

  /** What the scan has met and still has to meet, one number further on. */
  lemma MeetsNumber(met: seq<Prefix>, p: Prefix, rest: seq<Prefix>, all: seq<Prefix>)
    requires all == met + ([p] + rest)
    ensures all == met + [p] + rest
    ensures Overflows(p) ==> !NoneOverflows(all)
    ensures NoneOverflows(met) && !Overflows(p) ==> NoneOverflows(met + [p])
  {
    assert all[|met|] == p;
  }

  /** The scan panics exactly on an overflowing prefix, otherwise finds the first longest identifier. */
  method Scan(name: string, ghost all: seq<Prefix>) returns (r: Outcome)
    requires 2 <= |name| < U64 && all == Prefixes(name, 2)
    ensures r.Panic? <==> !NoneOverflows(all)
    ensures r.Done? ==> r.name == Longest(Words(name, all))
  {
    var best := "";
    var i := 2;
    ghost var met: seq<Prefix> := [];
    while i < |name|
      invariant all == met + Prefixes(name, i)
      invariant best == Longest(Words(name, met)) && NoneOverflows(met)
      decreases |name| - i
    {
      if IsDigit(name[i]) {
        var end := SkipDigits(name, i);
        ghost var p := PrefixAt(name, i);
        PrefixesUnfold(name, i);
        MeetsNumber(met, p, Prefixes(name, After(name, p)), all);
        LongestSnoc(name, met, p);
        r, i := TakeIdent(name, i, end, best);
        if r.Panic? {
          return;
        }
        best, met := r.name, met + [p];
      } else {
        i := i + 1;
      }
    }
    assert met == all;
    r := Done(best);
  }

  method Demangle(raw: string) returns (r: Outcome)
    requires |raw| < U64
    ensures r.Panic? <==> Overflowing(raw)
    ensures r.Done? ==> r.name == Demangled(raw)
  {
    r := Done(raw);
    if Mangled(raw) {
      var best := Scan(raw, Prefixes(raw, 2));
      if best.Panic? || best.name != "" {
        r := best;
      }
    }
  }

  /** The word found is one of them, no shorter than any other and longer than all before it. */
  lemma {:induction false} LongestIs(words: seq<string>) returns (at: nat)
    ensures at <= |words| && Longest(words) == if at < |words| then words[at] else ""
    ensures forall i :: 0 <= i < |words| ==> |words[i]| <= |Longest(words)|
    ensures at < |words| ==> forall i :: 0 <= i < at ==> |words[i]| < |Longest(words)|
  {
    at := 0;
    if words != [] {
      var n := |words| - 1;
      at := LongestIs(words[..n]);
      if |words[n]| > |Longest(words[..n])| {
        at := n;
      } else if at == n {
        at := n + 1;
      }
    }
  }

  function Pow10(n: nat): nat {
    if n == 0 then 1 else 10 * Pow10(n - 1)
  }

  lemma {:induction false} ValueBound(digits: string)
    requires AllDigits(digits)
    ensures Value(digits) < Pow10(|digits|)
  {
    if digits != "" {
      ValueBound(digits[..|digits| - 1]);
    }
  }

  lemma {:induction false} Pow10Grows(m: nat, n: nat)
    requires m <= n
    ensures Pow10(m) <= Pow10(n)
  {
    if m < n {
      Pow10Grows(m, n - 1);
    }
  }

  lemma Pow10Of19()
    ensures Pow10(19) == 10000000000000000000
  {
    assert Pow10(4) == 10000;
    assert Pow10(8) == 100000000;
    assert Pow10(12) == 1000000000000;
    assert Pow10(16) == 10000000000000000;
  }

  /** No twenty digits in a row. */
  ghost predicate ShortNumbers(name: string) {
    forall i, e :: 0 <= i <= e <= |name| && AllDigits(name[i..e]) ==> e - i < 20
  }

  lemma {:induction false} ShortNumbersFrom(name: string, i: nat)
    requires ShortNumbers(name) && |name| + 10000000000000000000 <= U64
    ensures NoneOverflows(Prefixes(name, i))
    decreases |name| - i
  {
    if i < |name| {
      if IsDigit(name[i]) {
        var p := PrefixAt(name, i);
        PrefixesUnfold(name, i);
        ShortNumbersFrom(name, After(name, p));
        ValueBound(name[i..p.end]);
        Pow10Grows(p.end - i, 19);
        Pow10Of19();
      } else {
        ShortNumbersFrom(name, i + 1);
      }
    }
  }

  /** Names without a twenty-digit number never panic. */
  lemma ShortNumbersSafe(raw: string)
    requires ShortNumbers(raw) && |raw| + 10000000000000000000 <= U64
    ensures !Overflowing(raw)
  {
    ShortNumbersFrom(raw, 2);
  }

  /** A number in decimal. */
  function Decimal(v: nat): (s: string)
    ensures AllDigits(s) && s != "" && Value(s) == v
  {
    var last := [('0' as int + v % 10) as char];
    if v < 10 then
      assert last[..0] == "";
      last
    else
      var s := Decimal(v / 10) + last;
      assert s[..|s| - 1] == Decimal(v / 10);
      s
  }

  /** For example `_Z18446744073709551615`. */
  lemma OverflowExample()
    ensures Overflowing("_Z" + Decimal(U64 - 1))
  {
    var digits := Decimal(U64 - 1);
    var raw := "_Z" + digits;
    assert raw[2..] == digits;
    AllDigitsEnd(raw, 2);
    assert raw[2..|raw|] == digits;
    PrefixesUnfold(raw, 2);
    assert Prefixes(raw, 2)[0] == Prefix(|raw|, U64 - 1);
  }

  lemma {:induction false} AllDigitsEnd(name: string, i: nat)
    requires i <= |name| && AllDigits(name[i..])
    ensures DigitsEnd(name, i) == |name|
    decreases |name| - i
  {
    if i < |name| {
      assert name[i..][0] == name[i];
      assert name[i..][1..] == name[i + 1..];
      AllDigitsEnd(name, i + 1);
    }
  }

  // ----- template arguments

  function Step(depth: nat, c: char): nat {
    if c == '<' then depth + 1 else if c == '>' && depth > 0 then depth - 1 else depth
  }

  /** The nesting depth after reading a string from a depth, and the characters kept on the way. */
  function DepthFrom(depth: nat, s: string): nat
    decreases |s|
  {
    if s == "" then depth else DepthFrom(Step(depth, s[0]), s[1..])
  }

  function OutsideFrom(depth: nat, s: string): string
    decreases |s|
  {
    if s == "" then ""
    else (if depth == 0 && s[0] != '<' then [s[0]] else "") + OutsideFrom(Step(depth, s[0]), s[1..])
  }

  function Outside(s: string): string {
    OutsideFrom(0, s)
  }

  lemma {:induction false} Across(depth: nat, a: string, b: string)
    ensures DepthFrom(depth, a + b) == DepthFrom(DepthFrom(depth, a), b)
    ensures OutsideFrom(depth, a + b) == OutsideFrom(depth, a) + OutsideFrom(DepthFrom(depth, a), b)
    decreases |a|
  {
    if a == "" {
      assert a + b == b;
    } else {
      assert (a + b)[0] == a[0] && (a + b)[1..] == a[1..] + b;
      var d := Step(depth, a[0]);
      Across(d, a[1..], b);
      var first := if depth == 0 && a[0] != '<' then [a[0]] else "";
      Associate(first, OutsideFrom(d, a[1..]), OutsideFrom(DepthFrom(d, a[1..]), b));
    }
  }

  method StripTemplates(name: string) returns (result: string)
    ensures result == Outside(name)
  {
    result := "";
    var depth := 0;
    for i := 0 to |name|
      invariant depth == DepthFrom(0, name[..i]) && result == OutsideFrom(0, name[..i])
    {
      assert name[..i + 1] == name[..i] + [name[i]];
      Across(0, name[..i], [name[i]]);
      assert [name[i]][1..] == "";
      var c := name[i];
      if c == '<' {
        depth := depth + 1;
      } else if c == '>' && depth > 0 {
        depth := depth - 1;
      } else if depth == 0 {
        result := result + [c];
      }
    }
    assert name[..|name|] == name;
  }

  lemma {:induction false} OutsideHasNoAngle(depth: nat, s: string)
    ensures '<' !in OutsideFrom(depth, s)
    decreases |s|
  {
    if s != "" {
      OutsideHasNoAngle(Step(depth, s[0]), s[1..]);
    }
  }

  /** Template arguments: every `<` inside is closed inside, and nothing outside is. */
  ghost predicate Balanced(args: string) {
    DepthFrom(1, args) == 1 && forall k :: 0 <= k <= |args| ==> DepthFrom(1, args[..k]) >= 1
  }

  lemma {:induction false} NothingInside(depth: nat, s: string)
    requires forall k :: 0 <= k < |s| ==> DepthFrom(depth, s[..k]) >= 1
    ensures OutsideFrom(depth, s) == ""
    decreases |s|
  {
    if s != "" {
      assert DepthFrom(depth, s[..0]) == depth;
      var d, rest := Step(depth, s[0]), s[1..];
      forall k | 0 <= k < |rest| ensures DepthFrom(d, rest[..k]) >= 1 {
        assert s[..k + 1][1..] == rest[..k];
        assert DepthFrom(depth, s[..k + 1]) == DepthFrom(d, rest[..k]);
      }
      NothingInside(d, rest);
    }
  }

  lemma ArgsInside(a: string, args: string)
    requires DepthFrom(0, a) == 0 && Balanced(args)
    ensures DepthFrom(0, a + "<" + args + ">") == 0 && Outside(a + "<" + args + ">") == Outside(a)
  {
    Opens(a);
    Across(0, a + "<", args);
    NothingInside(1, args);
    Across(0, a + "<" + args, ">");
    assert ">"[1..] == "";
  }

  lemma Opens(a: string)
    requires DepthFrom(0, a) == 0
    ensures DepthFrom(0, a + "<") == 1 && Outside(a + "<") == Outside(a)
  {
    Across(0, a, "<");
    assert "<"[1..] == "";
  }

  /** Template arguments disappear, nested ones with them, and nothing else does. */
  lemma TemplateArgsRemoved(a: string, args: string, b: string)
    requires DepthFrom(0, a) == 0 && Balanced(args)
    ensures Outside(a + "<" + args + ">" + b) == Outside(a + b)
  {
    Across(0, a, b);
    Across(0, a + "<" + args + ">", b);
    ArgsInside(a, args);
  }

  // ----- the rest of the name

  /** The part before the first parenthesis. */
  function BeforeParen(s: string): (r: string)
    ensures r <= s && '(' !in r && (|r| < |s| ==> s[|r|] == '(')
  {
    if s == "" || s[0] == '(' then "" else [s[0]] + BeforeParen(s[1..])
  }

  predicate IsSpace(c: char) {
    9 <= c as int <= 13 || c == ' '
  }

  function TrimEnd(s: string): (r: string)
    ensures r <= s && (r != "" ==> !IsSpace(r[|r| - 1]))
    ensures forall i :: |r| <= i < |s| ==> IsSpace(s[i])
  {
    if s != "" && IsSpace(s[|s| - 1]) then TrimEnd(s[..|s| - 1]) else s
  }

  /** The position of the last underscore, the length without one. */
  function LastUnderscore(s: string): (i: nat)
    ensures i <= |s| && (i < |s| ==> s[i] == '_')
    ensures forall j :: i < j < |s| ==> s[j] != '_'
    ensures i == |s| ==> '_' !in s
  {
    if s == "" then 0
    else if s[|s| - 1] == '_' then |s| - 1
    else
      var i := LastUnderscore(s[..|s| - 1]);
      if i == |s| - 1 then |s| else i
  }

  predicate NumericSuffix(s: string, i: nat) {
    i + 1 < |s| && s[i] == '_' && AllDigits(s[i + 1..])
  }

  lemma SuffixIsLast(s: string, j: nat)
    requires NumericSuffix(s, j)
    ensures LastUnderscore(s) == j
  {
    forall k | j < k < |s| ensures s[k] != '_' {
      assert s[j + 1..][k - j - 1] == s[k];
    }
  }

  /** Drops an underscore followed by digits only, at the end. */
  function DropNumber(s: string): (r: string)
    ensures r <= s
    ensures if exists i: nat :: NumericSuffix(s, i) then NumericSuffix(s, |r|) else r == s
  {
    var i := LastUnderscore(s);
    assert (exists j: nat :: NumericSuffix(s, j)) ==> NumericSuffix(s, i) by {
      if j: nat :| NumericSuffix(s, j) {
        SuffixIsLast(s, j);
      }
    }
    if NumericSuffix(s, i) then s[..i] else s
  }

  function Cut(s: string): string {
    if |s| <= LIMIT then s else s[..LIMIT]
  }

  function Core(raw: string): string {
    DropNumber(TrimEnd(BeforeParen(Outside(Demangled(raw)))))
  }

  function Bytes(s: string): seq<Byte>
    requires Ascii(s)
  {
    seq(|s|, i requires 0 <= i < |s| => s[i] as int)
  }

  lemma {:induction false} AsciiWellFormed(b: seq<Byte>)
    requires forall i :: 0 <= i < |b| ==> b[i] < 128
    ensures WellFormed(b)
    decreases |b|
  {
    if b != [] {
      AsciiWellFormed(b[1..]);
    }
  }

  method TruncateAscii(s: string) returns (r: string)
    requires Ascii(s)
    ensures r == Cut(s)
  {
    var b := Bytes(s);
    AsciiWellFormed(b);
    var t := Truncate(b, LIMIT);
    if |s| > LIMIT {
      AsciiWellFormed(b[..LIMIT]);
    }
    r := s[..|t|];
  }

  method NormalizeKernelName(raw: string) returns (r: Outcome)
    requires Ascii(raw) && |raw| < U64
    ensures r.Panic? <==> Overflowing(raw)
    ensures r.Done? ==> r.name == if Core(raw) == "" then Cut(raw) else Cut(Core(raw))
  {
    r := Demangle(raw);
    if r.Panic? {
      return;
    }
    var result := StripTemplates(r.name);
    AsciiKept(raw);
    var name := TruncateAscii(DropNumber(TrimEnd(BeforeParen(result))));
    if name == "" {
      name := TruncateAscii(raw);
    }
    r := Done(name);
  }

  lemma {:induction false} OutsideAscii(depth: nat, s: string)
    requires Ascii(s)
    ensures Ascii(OutsideFrom(depth, s))
    decreases |s|
  {
    if s != "" {
      OutsideAscii(Step(depth, s[0]), s[1..]);
    }
  }

  lemma DemangledAscii(raw: string)
    requires Ascii(raw)
    ensures Ascii(Demangled(raw))
  {
    var at := LongestIs(Words(raw, Prefixes(raw, 2)));
    if at < |Prefixes(raw, 2)| {
      assert AllWord(WordOf(raw, Prefixes(raw, 2)[at]));
    }
  }

  lemma AsciiKept(raw: string)
    requires Ascii(raw)
    ensures Ascii(Core(raw))
  {
    DemangledAscii(raw);
    OutsideAscii(0, Demangled(raw));
  }

  lemma PrefixChain(a: string, b: string, c: string)
    requires a <= b <= c
    ensures a <= c && forall x :: x !in b ==> x !in a
  {
  }

  lemma CoreIsPrefix(outside: string, core: string)
    requires core == DropNumber(TrimEnd(BeforeParen(outside)))
    ensures core <= outside && '(' !in core
  {
    var head := BeforeParen(outside);
    PrefixChain(core, TrimEnd(head), head);
    PrefixChain(core, head, outside);
  }

  lemma CutIsPrefix(s: string)
    ensures Cut(s) <= s && |Cut(s)| <= LIMIT && (s != "" ==> Cut(s) != "")
  {
  }

  lemma CutOfCore(outside: string)
    ensures var name := Cut(DropNumber(TrimEnd(BeforeParen(outside))));
            name <= outside && |name| <= LIMIT && '(' !in name && ('<' !in outside ==> '<' !in name)
  {
    var core := DropNumber(TrimEnd(BeforeParen(outside)));
    CutIsPrefix(core);
    CoreIsPrefix(outside, core);
    PrefixChain(Cut(core), core, outside);
    PrefixChain(core, outside, outside);
  }

  /** At most 64 bytes; and unless it falls back to the raw name, a prefix of the characters outside
      template arguments, without `<` and `(`. */
  lemma NormalizedShape(raw: string, name: string)
    requires name == if Core(raw) == "" then Cut(raw) else Cut(Core(raw))
    ensures |name| <= LIMIT && (raw != "" ==> name != "")
    ensures if Core(raw) == "" then name <= raw
            else name <= Outside(Demangled(raw)) && '<' !in name && '(' !in name
  {
    CutIsPrefix(raw);
    if Core(raw) != "" {
      OutsideHasNoAngle(0, Demangled(raw));
      CutOfCore(Outside(Demangled(raw)));
      CutIsPrefix(Core(raw));
    }
  }

  lemma {:induction false} NoAngles(s: string)
    requires '<' !in s && '>' !in s
    ensures DepthFrom(0, s) == 0 && Outside(s) == s
  {
    if s != "" {
      NoAngles(s[1..]);
    }
  }

  lemma {:induction false} ParamsRemoved(f: string, params: string)
    requires '(' !in f
    ensures BeforeParen(f + "(" + params) == f
  {
    if f != "" {
      assert (f + "(" + params)[1..] == f[1..] + "(" + params;
      ParamsRemoved(f[1..], params);
    }
  }

  /** A name that has nothing to strip. */
  ghost predicate Plain(f: string) {
    && f != "" && '<' !in f && '>' !in f && '(' !in f
    && !Mangled(f) && !IsSpace(f[|f| - 1]) && forall i: nat :: !NumericSuffix(f, i)
  }

  /** A readable signature, with nested template arguments and any parameters, comes down to what
      stands before them; a return type stays in front. */
  lemma SignatureStripped(f: string, args: string, params: string)
    requires Plain(f) && Balanced(args)
    ensures Core(f + "<" + args + ">" + ("(" + params)) == f
  {
    var raw := f + "<" + args + ">" + ("(" + params);
    PlainDemangled(f, "<" + args + ">" + ("(" + params));
    assert raw == f + ("<" + args + ">" + ("(" + params));
    OutsideSignature(f, args, params);
    ParamsRemoved(f, Outside(params));
  }

  lemma OutsideSignature(f: string, args: string, params: string)
    requires '<' !in f && '>' !in f && Balanced(args)
    ensures Outside(f + "<" + args + ">" + ("(" + params)) == f + "(" + Outside(params)
  {
    NoAngles(f);
    TemplateArgsRemoved(f, args, "(" + params);
    Across(0, f, "(" + params);
    assert ("(" + params)[1..] == params;
    Associate(f, "(", Outside(params));
  }

  lemma PlainDemangled(f: string, rest: string)
    requires Plain(f) && rest != "" && rest[0] != 'Z'
    ensures Demangled(f + rest) == f + rest
  {
  }
}
