/** End-to-end exactness of the aggregate latency histograms: what the `*_bucket_total`,
    `*_count_total` and `*_sum_seconds_total` counters publish, plus what the per-CPU rows still
    hold, is what was recorded, in every interleaving of probe hits and drains. */
module Histograms {
  import opened Sums
  import opened Events
  import opened PerCpuTable

  function Id(): nat -> int {
    (x: nat) => x
  }

  /** Sum of the first `n` buckets (all of them when there are fewer). */
  function Prefix(buckets: seq<nat>, n: nat): int {
    SumOver(if n <= |buckets| then buckets[..n] else buckets, Id())
  }

  /** The running sum published at position `i` of the `le` labels. */
  function Cumulative(buckets: seq<nat>, i: nat): int {
    Prefix(buckets, i + 1)
  }

  // ----- the quantities

  function LeWeight(i: nat): Cell -> int {
    (c: Cell) => Cumulative(c.buckets, i)
  }

  function CountWeight(): Cell -> int {
    (c: Cell) => c.count
  }

  function DurationWeight(): Cell -> int {
    (c: Cell) => c.durationSum
  }

  function SizeWeight(): Cell -> int {
    (c: Cell) => c.sizeSum
  }

  /** The cumulative count at position `i` of the `le` labels. */
  function Le<K>(i: nat, select: K -> bool): Measure<K> {
    Measure(LeWeight(i), (h: Hit) => if h.bucket <= i then h.mul else 0, select)
  }

  function Count<K>(select: K -> bool): Measure<K> {
    Measure(CountWeight(), (h: Hit) => h.mul, select)
  }

  function Duration<K>(select: K -> bool): Measure<K> {
    Measure(DurationWeight(), (h: Hit) => h.duration * h.mul, select)
  }

  function Size<K>(select: K -> bool): Measure<K> {
    Measure(SizeWeight(), (h: Hit) => h.size * h.mul, select)
  }

  function Labelled<K, L(==)>(labelOf: K -> L, l: L): K -> bool {
    (k: K) => labelOf(k) == l
  }

  // ----- arithmetic of one cell

  lemma {:induction false} PrefixUpdate(s: seq<nat>, b: nat, x: nat, n: nat)
    requires b < |s|
    ensures Prefix(s[b := x], n) == Prefix(s, n) + (if b < n then x - s[b] else 0)
  {
    if n <= |s| {
      if b < n {
        assert s[b := x][..n] == s[..n][b := x];
        SumOverUpdate(s[..n], b, x, Id());
      } else {
        assert s[b := x][..n] == s[..n];
      }
    } else {
      SumOverUpdate(s, b, x, Id());
    }
  }

  lemma {:induction false} BucketAtMostTotal(s: seq<nat>, b: nat)
    requires b < |s|
    ensures 0 <= s[b] <= SumOver(s, Id())
  {
    var n := |s| - 1;
    if b < n {
      BucketAtMostTotal(s[..n], b);
    } else if n > 0 {
      BucketAtMostTotal(s[..n], 0);
    }
  }

  lemma ZeroWeighsNothing(buckets: nat, n: nat)
    ensures Prefix(Zero(buckets).buckets, n) == 0
  {
    var s := Zero(buckets).buckets;
    SumOverZero(if n <= |s| then s[..n] else s, Id());
  }

  /** A cell none of whose counters has wrapped: its buckets add up to its count. */
  predicate Exact(c: Cell) {
    SumOver(c.buckets, Id()) == c.count && c.count < U32
  }

  ghost predicate AllExact<K(!new)>(rows: map<K, Row>) {
    forall k, c :: k in rows && 0 <= c < |rows[k]| ==> Exact(rows[k][c])
  }

  /** Fewer than 2^32 weighted hits on this key and CPU since the row was made: with a fixed
      sampling rate `r`, `count` is `r` times the number of hits. */
  ghost predicate Fits<K(!new)>(shape: Shape, t: Table<K>, a: Action<K>)
    requires Enabled(shape, t, a)
  {
    a.Record? ==> RowOf(shape, t.rows, a.key)[a.cpu].count + a.hit.mul < U32
  }

  lemma ApplyExact(c: Cell, h: Hit)
    requires Exact(c) && h.bucket < |c.buckets| && c.count + h.mul < U32
    ensures Exact(Apply(c, h))
    ensures Apply(c, h).count == c.count + h.mul
    ensures forall n: nat ::
              Prefix(Apply(c, h).buckets, n) == Prefix(c.buckets, n) + (if h.bucket < n then h.mul else 0)
  {
    BucketAtMostTotal(c.buckets, h.bucket);
    var x: nat := c.buckets[h.bucket] + h.mul;
    SumOverUpdate(c.buckets, h.bucket, x, Id());
    forall n: nat
      ensures Prefix(c.buckets[h.bucket := x], n) == Prefix(c.buckets, n) + (if h.bucket < n then h.mul else 0)
    {
      PrefixUpdate(c.buckets, h.bucket, x, n);
    }
  }

  lemma RowCellExact<K(!new)>(shape: Shape, t: Table<K>, a: Action<K>)
    requires Enabled(shape, t, a) && AllExact(t.rows) && a.Record?
    ensures Exact(RowOf(shape, t.rows, a.key)[a.cpu])
  {
    ZeroWeighsNothing(shape.buckets, shape.buckets);
    var s := Zero(shape.buckets).buckets;
    assert s[..shape.buckets] == s;
  }

  lemma StepExact<K(!new)>(shape: Shape, t: Table<K>, a: Action<K>)
    requires Enabled(shape, t, a) && AllExact(t.rows) && Fits(shape, t, a)
    ensures AllExact(Step(shape, t, a).rows)
  {
    if a.Record? && Accepts(shape, t.rows, a.key) {
      var row := RowOf(shape, t.rows, a.key);
      RowCellExact(shape, t, a);
      ApplyExact(row[a.cpu], a.hit);
      var rows' := Step(shape, t, a).rows;
      forall k, c | k in rows' && 0 <= c < |rows'[k]|
        ensures Exact(rows'[k][c])
      {
        if k == a.key && c != a.cpu && k !in t.rows {
          RowCellExact(shape, t, a.(cpu := c));
        }
      }
    }
  }

  // ----- the published rows

  predicate ExactRow(shape: Shape, row: Row) {
    GoodRow(shape, row) && forall c :: 0 <= c < |row| ==> Exact(row[c])
  }

  /** Every row published so far was a row of exact cells. */
  ghost predicate DrainedExact<K(!new)>(shape: Shape, t: Table<K>) {
    forall e :: 0 <= e < |t.past.drained| ==> ExactRow(shape, t.past.drained[e].1)
  }

  lemma StepDrainedExact<K(!new)>(shape: Shape, t: Table<K>, a: Action<K>)
    requires Enabled(shape, t, a) && AllExact(t.rows) && DrainedExact(shape, t)
    ensures DrainedExact(shape, Step(shape, t, a))
  {
  }

  /** At the last `le` position (`+Inf`) and past it, a row of exact cells weighs its count. */
  lemma InfRowIsCount(shape: Shape, row: Row, i: nat)
    requires ExactRow(shape, row) && shape.buckets <= i + 1
    ensures RowWeight(LeWeight(i), row) == RowWeight(CountWeight(), row)
  {
    forall c | 0 <= c < |row| ensures LeWeight(i)(row[c]) == CountWeight()(row[c]) {
      var s := row[c].buckets;
      assert s[..|s|] == s;
    }
    SumOverSame(row, LeWeight(i), CountWeight());
  }

  /** So the published `+Inf` counter is the published count. */
  lemma InfIsCount<K(!new)>(shape: Shape, t: Table<K>, i: nat, select: K -> bool)
    requires DrainedExact(shape, t) && shape.buckets <= i + 1
    ensures Published(Le(i, select), t) == Published(Count(select), t)
  {
    forall e | 0 <= e < |t.past.drained|
      ensures DrainWeight(Le(i, select))(t.past.drained[e]) == DrainWeight(Count(select))(t.past.drained[e])
    {
      InfRowIsCount(shape, t.past.drained[e].1, i);
    }
    SumOverSame(t.past.drained, DrainWeight(Le(i, select)), DrainWeight(Count(select)));
  }

  /** Bucket prefixes and counts are additive while nothing wraps; the `u64` sums always are,
      modulo 2^64. */
  lemma AdditiveQuantities<K(!new)>(shape: Shape, t: Table<K>, a: Action<K>, i: nat, select: K -> bool)
    requires Enabled(shape, t, a) && AllExact(t.rows) && Fits(shape, t, a)
    ensures Additive(Le(i, select), 0, shape, t, a)
    ensures Additive(Count(select), 0, shape, t, a)
  {
    if a.Record? {
      RowCellExact(shape, t, a);
      ApplyExact(RowOf(shape, t.rows, a.key)[a.cpu], a.hit);
      DividesZero(0);
    }
  }

  lemma WrapIsMultiple(x: nat, y: nat)
    ensures Divides(U64, Wrap64(x + Wrap64(y)) - x - y)
  {
    var q := y / U64;
    var p := (x + Wrap64(y)) / U64;
    assert Wrap64(x + Wrap64(y)) - x - y == U64 * (-p - q);
  }

  lemma AdditiveSums<K(!new)>(shape: Shape, t: Table<K>, a: Action<K>, select: K -> bool)
    requires Enabled(shape, t, a)
    ensures Additive(Duration(select), U64, shape, t, a)
    ensures Additive(Size(select), U64, shape, t, a)
  {
    if a.Record? {
      var c := RowOf(shape, t.rows, a.key)[a.cpu];
      WrapIsMultiple(c.durationSum, a.hit.duration * a.hit.mul);
      WrapIsMultiple(c.sizeSum, a.hit.size * a.hit.mul);
    }
  }

  // ----- whole runs

  ghost predicate Legal<K(!new)>(shape: Shape, t: Table<K>, run: seq<Action<K>>)
    decreases |run|
  {
    run != [] ==>
      && Enabled(shape, t, run[0])
      && Fits(shape, t, run[0])
      && Legal(shape, Step(shape, t, run[0]), run[1..])
  }

  ghost function Run<K(!new)>(shape: Shape, t: Table<K>, run: seq<Action<K>>): Table<K>
    requires Legal(shape, t, run)
    decreases |run|
  {
    if run == [] then t else Run(shape, Step(shape, t, run[0]), run[1..])
  }

  ghost predicate Sound<K(!new)>(shape: Shape, t: Table<K>, i: nat, select: K -> bool) {
    && AllExact(t.rows)
    && DrainedExact(shape, t)
    && Conserved(Le(i, select), 0, t)
    && Conserved(Count(select), 0, t)
    && Conserved(Duration(select), U64, t)
    && Conserved(Size(select), U64, t)
  }

  lemma StepSound<K(!new)>(shape: Shape, t: Table<K>, a: Action<K>, i: nat, select: K -> bool)
    requires Enabled(shape, t, a) && Fits(shape, t, a) && Sound(shape, t, i, select)
    ensures Sound(shape, Step(shape, t, a), i, select)
  {
    ZeroWeighsNothing(shape.buckets, i + 1);
    StepExact(shape, t, a);
    StepDrainedExact(shape, t, a);
    AdditiveQuantities(shape, t, a, i, select);
    AdditiveSums(shape, t, a, select);
    StepConserves(Le(i, select), 0, shape, t, a);
    StepConserves(Count(select), 0, shape, t, a);
    StepConserves(Duration(select), U64, shape, t, a);
    StepConserves(Size(select), U64, shape, t, a);
  }

  lemma {:induction false} RunSound<K(!new)>(shape: Shape, t: Table<K>, run: seq<Action<K>>, i: nat, select: K -> bool)
    requires Legal(shape, t, run) && Sound(shape, t, i, select)
    ensures Sound(shape, Run(shape, t, run), i, select)
    decreases |run|
  {
    if run != [] {
      StepSound(shape, t, run[0], i, select);
      RunSound(shape, Step(shape, t, run[0]), run[1..], i, select);
    }
  }

  /** Every lookup is followed at once by its delete. */
  ghost predicate Atomic<K(!new)>(run: seq<Action<K>>) {
    forall j :: 0 <= j < |run| - 1 && run[j].Lookup? ==> run[j + 1].Delete?
  }

  lemma {:induction false} RunUnraced<K(!new)>(shape: Shape, t: Table<K>, run: seq<Action<K>>)
    requires Legal(shape, t, run) && Atomic(run) && Unraced(t)
    requires t.past.pending != [] && run != [] ==> run[0].Delete?
    ensures Unraced(Run(shape, t, run))
    decreases |run|
  {
    if run != [] {
      StepUnraced(shape, t, run[0]);
      var rest := run[1..];
      assert forall j :: 0 <= j < |rest| ==> rest[j] == run[j + 1];
      RunUnraced(shape, Step(shape, t, run[0]), rest);
    }
  }

  lemma EmptySound<K(!new)>(shape: Shape, i: nat, select: K -> bool)
    ensures Sound(shape, Empty<K>(), i, select)
  {
    EmptyConserved(Le(i, select), 0);
    EmptyConserved(Count(select), 0);
    EmptyConserved(Duration(select), U64);
    EmptyConserved(Size(select), U64);
  }

  // ----- what the log says about durations

  /** The hit comes from a call that took `duration`, with sampling multiplier `rate`. */
  predicate Measured(bounds: seq<nat>, rate: nat, h: Hit) {
    h.mul == rate && h.bucket == BucketIndex(bounds, h.duration)
  }

  /** Calls of the selected keys that took at most the `i`-th bound; past the table, all calls. */
  function AtMost<K>(bounds: seq<nat>, i: nat, select: K -> bool, log: seq<(K, Hit)>): nat {
    if log == [] then 0
    else
      var (k, h) := log[|log| - 1];
      AtMost(bounds, i, select, log[..|log| - 1]) +
      if select(k) && (i < |bounds| ==> h.duration <= bounds[i]) then 1 else 0
  }

  lemma {:induction false} LeCountsDurations<K(!new)>(bounds: seq<nat>, rate: nat, i: nat, select: K -> bool,
                                                      log: seq<(K, Hit)>)
    requires Increasing(bounds)
    requires forall e :: 0 <= e < |log| ==> Measured(bounds, rate, log[e].1)
    ensures SumOver(log, HitWeight(Le(i, select))) == rate * AtMost(bounds, i, select, log)
  {
    if log != [] {
      var n := |log| - 1;
      LeCountsDurations(bounds, rate, i, select, log[..n]);
      if i < |bounds| {
        BucketDecidesLe(bounds, log[n].1.duration, i);
      }
      assert rate * (AtMost(bounds, i, select, log[..n]) + 1) == rate * AtMost(bounds, i, select, log[..n]) + rate;
    }
  }

  lemma {:induction false} CountCountsCalls<K(!new)>(bounds: seq<nat>, rate: nat, select: K -> bool, log: seq<(K, Hit)>)
    requires forall e :: 0 <= e < |log| ==> Measured(bounds, rate, log[e].1)
    ensures SumOver(log, HitWeight(Count(select))) == rate * AtMost(bounds, |bounds|, select, log)
  {
    if log != [] {
      var n := |log| - 1;
      CountCountsCalls(bounds, rate, select, log[..n]);
      assert rate * (AtMost(bounds, |bounds|, select, log[..n]) + 1) ==
             rate * AtMost(bounds, |bounds|, select, log[..n]) + rate;
    }
  }

  ghost predicate MeasuredRun<K(!new)>(bounds: seq<nat>, rate: nat, run: seq<Action<K>>) {
    forall j :: 0 <= j < |run| && run[j].Record? ==> Measured(bounds, rate, run[j].hit)
  }

  ghost predicate MeasuredLog<K(!new)>(bounds: seq<nat>, rate: nat, past: History<K>) {
    && (forall e :: 0 <= e < |past.log| ==> Measured(bounds, rate, past.log[e].1))
    && (forall e :: 0 <= e < |past.rejected| ==> Measured(bounds, rate, past.rejected[e].1))
  }

  lemma StepMeasured<K(!new)>(shape: Shape, t: Table<K>, a: Action<K>, bounds: seq<nat>, rate: nat)
    requires Enabled(shape, t, a) && MeasuredLog(bounds, rate, t.past)
    requires a.Record? ==> Measured(bounds, rate, a.hit)
    ensures MeasuredLog(bounds, rate, Step(shape, t, a).past)
  {
  }

  lemma {:induction false} RunMeasured<K(!new)>(shape: Shape, t: Table<K>, run: seq<Action<K>>, bounds: seq<nat>,
                                                rate: nat)
    requires Legal(shape, t, run) && MeasuredRun(bounds, rate, run) && MeasuredLog(bounds, rate, t.past)
    ensures MeasuredLog(bounds, rate, Run(shape, t, run).past)
    decreases |run|
  {
    if run != [] {
      assert MeasuredRun(bounds, rate, run[1..]);
      StepMeasured(shape, t, run[0], bounds, rate);
      RunMeasured(shape, Step(shape, t, run[0]), run[1..], bounds, rate);
    }
  }

  /** Main theorem. After any interleaving of hits on any CPUs with drain steps, for every label and
      every `le` position: published + resident + lost between lookup and delete + refused by a full
      map is `rate` times the number of calls of that label that took at most the bound. The same holds
      of the count, and the published `+Inf` counter is the published count. With atomic drains nothing
      is lost between lookup and delete. */
  lemma HistogramExact<K(!new), L(!new)>(shape: Shape, bounds: seq<nat>, rate: nat, labelOf: K -> L, l: L, i: nat,
                                         run: seq<Action<K>>)
    requires shape.buckets == |bounds| + 1 && Increasing(bounds)
    requires Legal(shape, Empty<K>(), run) && MeasuredRun(bounds, rate, run)
    ensures var t, select := Run(shape, Empty(), run), Labelled(labelOf, l);
            && Published(Le(i, select), t) + Resident(Le(i, select), t) + Raced(Le(i, select), t)
               + rate * AtMost(bounds, i, select, t.past.rejected)
               == rate * AtMost(bounds, i, select, t.past.log)
            && Published(Count(select), t) + Resident(Count(select), t) + Raced(Count(select), t)
               + rate * AtMost(bounds, |bounds|, select, t.past.rejected)
               == rate * AtMost(bounds, |bounds|, select, t.past.log)
            && (i >= |bounds| ==> Published(Le(i, select), t) == Published(Count(select), t))
            && (Atomic(run) ==> Raced(Le(i, select), t) == Raced(Count(select), t) == 0)
  {
    var select := Labelled(labelOf, l);
    EmptySound<K>(shape, i, select);
    RunSound(shape, Empty(), run, i, select);
    RunMeasured(shape, Empty(), run, bounds, rate);
    var t := Run(shape, Empty(), run);
    LeCountsDurations(bounds, rate, i, select, t.past.log);
    LeCountsDurations(bounds, rate, i, select, t.past.rejected);
    CountCountsCalls(bounds, rate, select, t.past.log);
    CountCountsCalls(bounds, rate, select, t.past.rejected);
    if i >= |bounds| {
      InfIsCount(shape, t, i, select);
    }
    if Atomic(run) {
      RunUnraced(shape, Empty(), run);
      UnracedWeighsNothing(Le(i, select), t);
      UnracedWeighsNothing(Count(select), t);
    }
  }
}
