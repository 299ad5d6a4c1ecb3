/** Converting a Prometheus histogram, whose buckets are cumulative, to an OpenTelemetry data point,
    whose buckets are not (OpenTelemetry Metrics Data Model, section "Histogram"). */
module Otlp {
  import opened Sums
  import opened Histograms
  import opened AggregateDrain

  datatype Bound = Finite(value: real) | PosInf | NegInf | NaN

  datatype Bucket = Bucket(bound: Bound, cumulative: nat)

  datatype DataPoint = DataPoint(count: nat, bounds: seq<real>, counts: seq<nat>)

  /** The buckets with a finite bound, in order. */
  function FiniteBuckets(buckets: seq<Bucket>): (r: seq<Bucket>)
    ensures forall b :: b in r ==> b.bound.Finite?
  {
    if buckets == [] then []
    else
      var rest := FiniteBuckets(buckets[..|buckets| - 1]);
      if buckets[|buckets| - 1].bound.Finite? then rest + [buckets[|buckets| - 1]] else rest
  }

  /** The finite cumulative counts followed by the sample count. */
  function Levels(buckets: seq<Bucket>, samples: nat): (r: seq<nat>)
    ensures |r| == |FiniteBuckets(buckets)| + 1
  {
    var finite := FiniteBuckets(buckets);
    seq(|finite|, i requires 0 <= i < |finite| => finite[i].cumulative) + [samples]
  }

  function Monus(a: nat, b: nat): nat {
    if a >= b then a - b else 0
  }

  /** How far a level rises above the one before it. */
  function Rise(levels: seq<nat>, i: nat): nat
    requires i < |levels|
  {
    Monus(levels[i], if i == 0 then 0 else levels[i - 1])
  }

  ghost predicate Converted(buckets: seq<Bucket>, samples: nat, p: DataPoint) {
    var finite, levels := FiniteBuckets(buckets), Levels(buckets, samples);
    && p.count == samples
    && |p.bounds| == |finite|
    && (forall i :: 0 <= i < |finite| ==> p.bounds[i] == finite[i].bound.value)
    && Rises(levels, p.counts)
  }

  ghost predicate Rises(levels: seq<nat>, counts: seq<nat>) {
    |counts| == |levels| && forall i :: 0 <= i < |counts| ==> counts[i] == Rise(levels, i)
  }

  method FilterFinite(buckets: seq<Bucket>) returns (finite: seq<Bucket>)
    ensures finite == FiniteBuckets(buckets)
  {
    finite := [];
    for i := 0 to |buckets|
      invariant finite == FiniteBuckets(buckets[..i])
    {
      assert buckets[..i + 1][..i] == buckets[..i];
      if buckets[i].bound.Finite? {
        finite := finite + [buckets[i]];
      }
    }
    assert buckets[..|buckets|] == buckets;
  }

  method HistogramToOtlp(buckets: seq<Bucket>, samples: nat) returns (p: DataPoint)
    ensures Converted(buckets, samples, p)
    ensures |p.counts| == |p.bounds| + 1
  {
    var finite := FilterFinite(buckets);
    var bounds := seq(|finite|, i requires 0 <= i < |finite| => finite[i].bound.value);
    ghost var levels := Levels(buckets, samples);
    var counts: seq<nat> := [];
    var prev := 0;
    for i := 0 to |finite|
      invariant |counts| == i && prev == if i == 0 then 0 else levels[i - 1]
      invariant forall j :: 0 <= j < i ==> counts[j] == Rise(levels, j)
    {
      var cum := finite[i].cumulative;
      counts := counts + [Monus(cum, prev)];
      prev := cum;
    }
    counts := counts + [Monus(samples, prev)];
    p := DataPoint(samples, bounds, counts);
  }

  // ----- what the conversion means

  /** A data point is determined by its histogram. */
  lemma ConvertedUnique(buckets: seq<Bucket>, samples: nat, p: DataPoint, q: DataPoint)
    requires Converted(buckets, samples, p) && Converted(buckets, samples, q)
    ensures p == q
  {
    assert p.bounds == q.bounds && p.counts == q.counts;
  }

  lemma {:induction false} FiniteAcross(a: seq<Bucket>, b: seq<Bucket>)
    ensures FiniteBuckets(a + b) == FiniteBuckets(a) + FiniteBuckets(b)
  {
    if b == [] {
      assert a + b == a;
    } else {
      FiniteAcross(a, b[..|b| - 1]);
      assert (a + b)[..|a + b| - 1] == a + b[..|b| - 1];
    }
  }

  /** A bucket without a finite bound, wherever it stands and whatever it counts, has no effect. */
  lemma InfiniteBucketsIgnored(a: seq<Bucket>, extra: Bucket, b: seq<Bucket>, samples: nat, p: DataPoint)
    requires !extra.bound.Finite?
    ensures Converted(a + [extra] + b, samples, p) <==> Converted(a + b, samples, p)
  {
    FiniteAcross(a + [extra], b);
    FiniteAcross(a, [extra]);
    FiniteAcross(a, b);
    assert FiniteBuckets([extra]) == [] by {
      assert [extra][..0] == [];
    }
    assert FiniteBuckets(a + [extra] + b) == FiniteBuckets(a + b);
  }

  ghost predicate NonDecreasing(levels: seq<nat>) {
    forall i :: 0 < i < |levels| ==> levels[i - 1] <= levels[i]
  }

  function Total(counts: seq<nat>): int {
    SumOver(counts, Id())
  }

  lemma {:induction false} RisesReach(levels: seq<nat>, counts: seq<nat>)
    requires Rises(levels, counts) && levels != []
    ensures Total(counts) >= levels[|levels| - 1]
    ensures Total(counts) == levels[|levels| - 1] <==> NonDecreasing(levels)
  {
    var n := |levels| - 1;
    SumOverAppend(counts[..n], counts[n], Id());
    assert counts == counts[..n] + [counts[n]];
    if n > 0 {
      RisesReach(levels[..n], counts[..n]);
      assert NonDecreasing(levels) <==> NonDecreasing(levels[..n]) && levels[n - 1] <= levels[n];
    }
  }

  /** The counts sum to at least the sample count, and to exactly it when and only when the finite
      cumulative counts followed by the sample count never decrease. */
  lemma CountsTotal(buckets: seq<Bucket>, samples: nat, p: DataPoint)
    requires Converted(buckets, samples, p)
    ensures Total(p.counts) >= p.count
    ensures Total(p.counts) == p.count <==> NonDecreasing(Levels(buckets, samples))
  {
    RisesReach(Levels(buckets, samples), p.counts);
  }

  /** Five observations below a bound and three in all: the counts sum to five. */
  lemma DecreasingExample(p: DataPoint)
    requires Converted([Bucket(Finite(1.0), 5)], 3, p)
    ensures Total(p.counts) > p.count
  {
    var buckets := [Bucket(Finite(1.0), 5)];
    AllFinite(buckets);
    assert Levels(buckets, 3) == [5, 3];
    assert !NonDecreasing(Levels(buckets, 3)) by {
      assert Levels(buckets, 3)[1 - 1] > Levels(buckets, 3)[1];
    }
    CountsTotal(buckets, 3, p);
  }

  /** The prefix sums of the counts are the cumulative counts of the input, under the same condition. */
  lemma PrefixesRecoverIff(buckets: seq<Bucket>, samples: nat, p: DataPoint)
    requires Converted(buckets, samples, p)
    ensures (forall i :: 0 <= i < |p.counts| ==> Cumulative(p.counts, i) == Levels(buckets, samples)[i])
            <==> NonDecreasing(Levels(buckets, samples))
  {
    var levels := Levels(buckets, samples);
    RisesReach(levels, p.counts);
    var last := |levels| - 1;
    assert p.counts[..last + 1] == p.counts;
    assert Cumulative(p.counts, last) == Total(p.counts);
    if NonDecreasing(levels) {
      forall i | 0 <= i < |p.counts| ensures Cumulative(p.counts, i) == levels[i] {
        RisesReach(levels[..i + 1], p.counts[..i + 1]);
      }
    }
  }

  lemma {:induction false} AllFinite(buckets: seq<Bucket>)
    requires forall i :: 0 <= i < |buckets| ==> buckets[i].bound.Finite?
    ensures FiniteBuckets(buckets) == buckets
  {
    if buckets != [] {
      AllFinite(buckets[..|buckets| - 1]);
      assert buckets == buckets[..|buckets| - 1] + [buckets[|buckets| - 1]];
    }
  }

  /** The conversion inverts the running sums of the drain: from the cumulative counters published for
      per-bucket counts, the `+Inf` one included, it gives those counts back. */
  lemma InvertsDrain(bounds: seq<real>, counts: seq<nat>, le: seq<Bucket>, samples: nat, p: DataPoint)
    requires |counts| == |bounds| + 1 && |le| == |bounds|
    requires forall i :: 0 <= i < |le| ==> le[i].bound == Finite(bounds[i]) && le[i].cumulative == Cumulative(counts, i)
    requires samples == Cumulative(counts, |bounds|)
    requires Converted(le + [Bucket(PosInf, samples)], samples, p)
    ensures p == DataPoint(samples, bounds, counts)
  {
    assert le + [] == le && le + [Bucket(PosInf, samples)] + [] == le + [Bucket(PosInf, samples)];
    InfiniteBucketsIgnored(le, Bucket(PosInf, samples), [], samples, p);
    AllFinite(le);
    var levels := Levels(le, samples);
    forall i | 0 <= i < |counts| ensures p.counts[i] == counts[i] {
      assert levels[i] == Cumulative(counts, i);
      PrefixExtend(counts, i);
      if i == 0 {
        assert counts[..0] == [];
      } else {
        assert levels[i - 1] == Cumulative(counts, i - 1);
      }
    }
    assert p.counts == counts && p.bounds == bounds;
  }
}
