/** The userspace side of an aggregate map: summing a row over the CPUs, turning bucket counts into
    cumulative `le` counters, and the drain loop, proved against the step system. */
module AggregateDrain {
  import opened Sums
  import opened PerCpuTable
  import opened Histograms

  function Value<X>(series: map<X, nat>, x: X): nat {
    if x in series then series[x] else 0
  }

  lemma {:induction false} PrefixExtend(buckets: seq<nat>, i: nat)
    requires i < |buckets|
    ensures Prefix(buckets, i + 1) == Prefix(buckets, i) + buckets[i]
  {
    assert buckets[..i + 1] == buckets[..i] + [buckets[i]];
    SumOverAppend(buckets[..i], buckets[i], Id());
  }

  lemma {:induction false} PrefixOfSum(a: seq<nat>, b: seq<nat>, s: seq<nat>, n: nat)
    requires |a| == |b| == |s| && n <= |s|
    requires forall i :: 0 <= i < |s| ==> s[i] == a[i] + b[i]
    ensures Prefix(s, n) == Prefix(a, n) + Prefix(b, n)
  {
    if n > 0 {
      PrefixOfSum(a, b, s, n - 1);
      PrefixExtend(a, n - 1);
      PrefixExtend(b, n - 1);
      PrefixExtend(s, n - 1);
    }
  }

  lemma RowSnoc(row: Row, c: nat, weigh: Cell -> int)
    requires c < |row|
    ensures RowWeight(weigh, row[..c + 1]) == RowWeight(weigh, row[..c]) + weigh(row[c])
  {
    assert row[..c + 1] == row[..c] + [row[c]];
    SumOverAppend(row[..c], row[c], weigh);
  }

  /** One CPU's buckets added to the running totals. */
  method AddBuckets(totals: seq<nat>, buckets: seq<nat>, ghost cpu: nat) returns (r: seq<nat>)
    requires |totals| == |buckets| && cpu < U32
    requires forall i :: 0 <= i < |totals| ==> totals[i] <= cpu * U32 && buckets[i] < U32
    ensures |r| == |totals|
    ensures forall i :: 0 <= i < |r| ==> r[i] == totals[i] + buckets[i] <= (cpu + 1) * U32
  {
    r := totals;
    for i := 0 to |buckets|
      invariant |r| == |totals|
      invariant forall j :: 0 <= j < i ==> r[j] == totals[j] + buckets[j]
      invariant forall j :: i <= j < |r| ==> r[j] == totals[j]
    {
      r := r[i := Wrap64(r[i] + buckets[i])];
    }
  }

  /** The 64-bit sums of the durations and of the sizes of a row, as the loop over the CPUs makes them. */
  function DurationTotal(row: Row): nat {
    if row == [] then 0 else Wrap64(DurationTotal(row[..|row| - 1]) + row[|row| - 1].durationSum)
  }

  function SizeTotal(row: Row): nat {
    if row == [] then 0 else Wrap64(SizeTotal(row[..|row| - 1]) + row[|row| - 1].sizeSum)
  }

  /** The buckets are the sums over the CPUs: each running sum is the row's weight at that position. */
  ghost predicate BucketSums(shape: Shape, row: Row, buckets: seq<nat>) {
    |buckets| == shape.buckets && forall i :: 0 <= i < shape.buckets ==>
      Cumulative(buckets, i) == RowWeight(LeWeight(i), row)
  }

  lemma BucketsStep(shape: Shape, row: Row, c: nat, totals: seq<nat>, buckets: seq<nat>)
    requires GoodRow(shape, row) && c < |row| && BucketSums(shape, row[..c], totals) && |buckets| == |totals|
    requires forall i :: 0 <= i < |buckets| ==> buckets[i] == totals[i] + row[c].buckets[i]
    ensures BucketSums(shape, row[..c + 1], buckets)
  {
    forall i | 0 <= i < shape.buckets ensures Cumulative(buckets, i) == RowWeight(LeWeight(i), row[..c + 1]) {
      PrefixOfSum(totals, row[c].buckets, buckets, i + 1);
      RowSnoc(row, c, LeWeight(i));
    }
  }

  lemma BucketsSmall(c: Cell)
    requires Exact(c)
    ensures forall i :: 0 <= i < |c.buckets| ==> c.buckets[i] < U32
  {
    forall i | 0 <= i < |c.buckets| ensures c.buckets[i] < U32 {
      BucketAtMostTotal(c.buckets, i);
    }
  }

  lemma ZeroSums(shape: Shape)
    ensures BucketSums(shape, [], Zero(shape.buckets).buckets)
  {
    forall i | 0 <= i < shape.buckets ensures Cumulative(Zero(shape.buckets).buckets, i) == 0 {
      ZeroWeighsNothing(shape.buckets, i + 1);
    }
  }

  /** The sums over the CPUs of one row. Counts and buckets are exact; the `u64` sums wrap. */
  method SumPerCpu(shape: Shape, row: Row) returns (count: nat, duration: nat, size: nat, buckets: seq<nat>)
    requires ExactRow(shape, row) && shape.cpus < U32
    ensures count == RowWeight(CountWeight(), row)
    ensures duration == DurationTotal(row) && size == SizeTotal(row)
    ensures BucketSums(shape, row, buckets)
  {
    count, duration, size, buckets := 0, 0, 0, Zero(shape.buckets).buckets;
    ZeroSums(shape);
    for c := 0 to |row|
      invariant count == RowWeight(CountWeight(), row[..c]) && count <= c * U32
      invariant duration == DurationTotal(row[..c]) && size == SizeTotal(row[..c])
      invariant BucketSums(shape, row[..c], buckets)
      invariant forall i :: 0 <= i < |buckets| ==> buckets[i] <= c * U32
    {
      var v := row[c];
      RowSnoc(row, c, CountWeight());
      assert row[..c + 1][..c] == row[..c];
      count := Wrap64(count + v.count);
      duration := Wrap64(duration + v.durationSum);
      size := Wrap64(size + v.sizeSum);
      BucketsSmall(v);
      var totals := buckets;
      buckets := AddBuckets(totals, v.buckets, c);
      BucketsStep(shape, row, c, totals, buckets);
    }
    assert row[..|row|] == row;
  }

  lemma SumStep(total: nat, x: nat, exact: int)
    requires Divides(U64, total - exact)
    ensures Divides(U64, Wrap64(total + x) - (exact + x))
  {
    WrapIsMultiple(total + x, 0);
    assert Wrap64(0) == 0;
    DividesSum(U64, Wrap64(total + x) - (total + x), total - exact);
  }

  lemma {:induction false} TotalsAre(row: Row)
    ensures Divides(U64, DurationTotal(row) - RowWeight(DurationWeight(), row))
    ensures Divides(U64, SizeTotal(row) - RowWeight(SizeWeight(), row))
  {
    if row == [] {
      DividesZero(U64);
    } else {
      var n := |row| - 1;
      TotalsAre(row[..n]);
      SumStep(DurationTotal(row[..n]), row[n].durationSum, RowWeight(DurationWeight(), row[..n]));
      SumStep(SizeTotal(row[..n]), row[n].sizeSum, RowWeight(SizeWeight(), row[..n]));
    }
  }

  /** `after` is `before` with the first `n` running sums of `buckets` added to the series of `l`. */
  ghost predicate Raised<L(!new)>(before: map<(L, nat), nat>, after: map<(L, nat), nat>, l: L, buckets: seq<nat>,
                                  n: nat) {
    forall x: L, i: nat ::
      var more := if x == l && i < n then Cumulative(buckets, i) else 0;
      && Value(after, (x, i)) == Value(before, (x, i)) + more
      && ((x, i) in after <==> (x, i) in before || more > 0)
  }

  /** Draining `keys` one after the other, each lookup followed at once by its delete; keys that
      are not in the map are skipped. */
  ghost predicate Drainable<K(!new)>(shape: Shape, t: Table<K>) {
    WellFormed(shape, t.rows) && t.past.pending == []
  }

  ghost function DrainAll<K(!new)>(shape: Shape, t: Table<K>, keys: seq<K>): (r: Table<K>)
    requires Drainable(shape, t)
    ensures Drainable(shape, r)
    ensures r.rows == t.rows - (set k | k in keys)
  {
    if keys == [] then t
    else
      var before := DrainAll(shape, t, keys[..|keys| - 1]);
      var key := keys[|keys| - 1];
      assert keys == keys[..|keys| - 1] + [key];
      if key in before.rows then Step(shape, Step(shape, before, Lookup(key)), Delete) else before
  }

  /** Every row holds at least one hit. */
  ghost predicate AllLive<K(!new)>(rows: map<K, Row>) {
    forall k :: k in rows ==> RowWeight(CountWeight(), rows[k]) > 0
  }

  lemma RecordLive<K(!new)>(shape: Shape, t: Table<K>, a: Action<K>)
    requires Enabled(shape, t, a) && a.Record? && a.hit.mul > 0
    requires AllExact(t.rows) && Fits(shape, t, a) && AllLive(t.rows)
    ensures AllLive(Step(shape, t, a).rows)
  {
    var row := RowOf(shape, t.rows, a.key);
    RowCellExact(shape, t, a);
    ApplyExact(row[a.cpu], a.hit);
    SumOverUpdate(row, a.cpu, Apply(row[a.cpu], a.hit), CountWeight());
    if a.key !in t.rows {
      SumOverZero(row, CountWeight());
    }
  }

  lemma AtomicDrainSound<K(!new)>(shape: Shape, t: Table<K>, key: K, i: nat, select: K -> bool)
    requires Enabled(shape, t, Lookup(key)) && Sound(shape, t, i, select)
    ensures Enabled(shape, Step(shape, t, Lookup(key)), Delete)
    ensures Sound(shape, Step(shape, Step(shape, t, Lookup(key)), Delete), i, select)
  {
    StepSound(shape, t, Lookup(key), i, select);
    StepSound(shape, Step(shape, t, Lookup(key)), Delete, i, select);
  }

  /** The three counter families agree with the rows published so far. */
  ghost predicate Match<K(!new), L(!new)>(shape: Shape, labelOf: K -> L, buckets: map<(L, nat), nat>,
                                          counts: map<L, nat>, durations: map<L, nat>, t: Table<K>)
  {
    && (forall l: L, i: nat :: i < shape.buckets ==>
          Value(buckets, (l, i)) == Published(Le(i, Labelled(labelOf, l)), t))
    && (forall l: L :: Value(counts, l) == Published(Count(Labelled(labelOf, l)), t))
    && (forall l: L :: Divides(U64, Value(durations, l) - Published(Duration(Labelled(labelOf, l)), t)))
  }

  /** The counters moved by exactly what one row of label `l` weighs. */
  ghost predicate Moved<L(!new)>(shape: Shape, l: L, row: Row,
                                 buckets: map<(L, nat), nat>, buckets': map<(L, nat), nat>,
                                 counts: map<L, nat>, counts': map<L, nat>,
                                 durations: map<L, nat>, durations': map<L, nat>)
  {
    && (forall x: L, i: nat :: i < shape.buckets ==>
          Value(buckets', (x, i)) == Value(buckets, (x, i)) + (if x == l then RowWeight(LeWeight(i), row) else 0))
    && (forall x: L ::
          Value(counts', x) == Value(counts, x) + (if x == l then RowWeight(CountWeight(), row) else 0))
    && (forall x: L ::
          Divides(U64, Value(durations', x) - Value(durations, x)
                       - (if x == l then RowWeight(DurationWeight(), row) else 0)))
  }

  lemma MatchAfterDrain<K(!new), L(!new)>(shape: Shape, labelOf: K -> L, key: K, t: Table<K>,
                                          buckets: map<(L, nat), nat>, buckets': map<(L, nat), nat>,
                                          counts: map<L, nat>, counts': map<L, nat>,
                                          durations: map<L, nat>, durations': map<L, nat>)
    requires Enabled(shape, t, Lookup(key)) && Match(shape, labelOf, buckets, counts, durations, t)
    requires Moved(shape, labelOf(key), t.rows[key], buckets, buckets', counts, counts', durations, durations')
    ensures Enabled(shape, Step(shape, t, Lookup(key)), Delete)
    ensures Match(shape, labelOf, buckets', counts', durations', Step(shape, Step(shape, t, Lookup(key)), Delete))
  {
    var t' := Step(shape, Step(shape, t, Lookup(key)), Delete);
    forall x: L, i: nat | i < shape.buckets
      ensures Value(buckets', (x, i)) == Published(Le(i, Labelled(labelOf, x)), t')
    {
      AtomicDrainRacesNothing(Le(i, Labelled(labelOf, x)), shape, t, key);
    }
    forall x: L
      ensures Value(counts', x) == Published(Count(Labelled(labelOf, x)), t')
      ensures Divides(U64, Value(durations', x) - Published(Duration(Labelled(labelOf, x)), t'))
    {
      AtomicDrainRacesNothing(Count(Labelled(labelOf, x)), shape, t, key);
      AtomicDrainRacesNothing(Duration(Labelled(labelOf, x)), shape, t, key);
      DividesSum(U64, Value(durations, x) - Published(Duration(Labelled(labelOf, x)), t),
                 Value(durations', x) - Value(durations, x)
                 - (if x == labelOf(key) then RowWeight(DurationWeight(), t.rows[key]) else 0));
    }
  }

  /** An aggregate map with the counters its drain feeds. `labelOf` is the label tuple the handle
      cache returns for a key. */
  class AggregateMap<K(==, !new), L(==, !new)> {
    const shape: Shape
    const labelOf: K -> L
    var rows: map<K, Row>
    var bucketTotals: map<(L, nat), nat>
    var countTotals: map<L, nat>
    var durationTotals: map<L, nat>
    ghost var past: History<K>

    ghost function Contents(): Table<K>
      reads this
    {
      Table(rows, past)
    }

    ghost predicate Valid()
      reads this
    {
      && shape.cpus < U32
      && Drainable(shape, Contents())
      && AllExact(rows)
      && AllLive(rows)
      && Unraced(Contents())
      && Match(shape, labelOf, bucketTotals, countTotals, durationTotals, Contents())
      && forall l: L, i: nat :: Sound(shape, Contents(), i, Labelled(labelOf, l))
    }

    constructor (shape: Shape, labelOf: K -> L)
      requires shape.cpus < U32
      ensures Valid() && Contents() == Empty()
      ensures this.shape == shape && this.labelOf == labelOf
    {
      this.shape, this.labelOf := shape, labelOf;
      rows, bucketTotals, countTotals, durationTotals := map[], map[], map[], map[];
      past := Empty<K>().past;
      new;
      forall l: L, i: nat ensures Sound(shape, Contents(), i, Labelled(labelOf, l)) {
        EmptySound<K>(shape, i, Labelled(labelOf, l));
      }
      DividesZero(U64);
    }

    method Record(key: K, cpu: nat, hit: Hit)
      requires Valid() && cpu < shape.cpus && hit.bucket < shape.buckets && hit.mul > 0
      requires Fits(shape, Contents(), PerCpuTable.Record(key, cpu, hit))
      modifies this`rows, this`past
      ensures Valid()
      ensures Contents() == Step(shape, old(Contents()), PerCpuTable.Record(key, cpu, hit))
    {
      ghost var before := Contents();
      past := Note(shape, before, key, hit);
      var refused;
      rows, refused := Update(shape, rows, key, cpu, hit);
      assert Contents() == Step(shape, before, PerCpuTable.Record(key, cpu, hit));
      StepUnraced(shape, before, PerCpuTable.Record(key, cpu, hit));
      forall l: L, i: nat ensures Sound(shape, Contents(), i, Labelled(labelOf, l)) {
        StepSound(shape, before, PerCpuTable.Record(key, cpu, hit), i, Labelled(labelOf, l));
      }
      StepExact(shape, before, PerCpuTable.Record(key, cpu, hit));
      RecordLive(shape, before, PerCpuTable.Record(key, cpu, hit));
    }

    /** Adds the running sums of `buckets` to the `le` series of one label; a series whose running
        sum is still zero is not created. */
    method IncCumulativeBucketCounters(l: L, buckets: seq<nat>)
      modifies this`bucketTotals
      ensures Raised(old(bucketTotals), bucketTotals, l, buckets, |buckets|)
    {
      ghost var before := bucketTotals;
      var cumulative := 0;
      for i := 0 to |buckets|
        invariant cumulative == Prefix(buckets, i)
        invariant Raised(before, bucketTotals, l, buckets, i)
      {
        PrefixExtend(buckets, i);
        cumulative := cumulative + buckets[i];
        if cumulative != 0 {
          bucketTotals := bucketTotals[(l, i) := Value(bucketTotals, (l, i)) + cumulative];
        }
      }
    }

    /** Publishes and deletes each key in turn; the keys are those the map listed when the drain
        began, at most 8192 of them, in any order. */
    method DrainPercpuHash(keys: seq<K>) returns (drained: nat)
      requires Valid()
      modifies this
      ensures Valid()
      ensures Contents() == DrainAll(shape, old(Contents()), keys)
      ensures drained <= |keys|
    {
      ghost var start := Contents();
      drained := 0;
      for j := 0 to |keys|
        invariant Valid() && drained <= j
        invariant Contents() == DrainAll(shape, start, keys[..j])
      {
        var key := keys[j];
        assert keys[..j + 1][..j] == keys[..j];
        if key in rows {
          DrainKey(key);
          drained := drained + 1;
        }
      }
      assert keys[..|keys|] == keys;
    }

    /** The drain callback: nothing is published for a row without a count. */
    method Publish(key: K, row: Row)
      requires ExactRow(shape, row) && shape.cpus < U32
      modifies this`bucketTotals, this`countTotals, this`durationTotals
      ensures RowWeight(CountWeight(), row) == 0 ==> unchanged(this)
      ensures RowWeight(CountWeight(), row) > 0 ==>
                Moved(shape, labelOf(key), row, old(bucketTotals), bucketTotals,
                      old(countTotals), countTotals, old(durationTotals), durationTotals)
    {
      var count, duration, size, buckets := SumPerCpu(shape, row);
      var l := labelOf(key);
      DividesZero(U64);
      TotalsAre(row);
      if count == 0 {
        return;
      }
      IncCumulativeBucketCounters(l, buckets);
      countTotals := countTotals[l := Value(countTotals, l) + count];
      durationTotals := durationTotals[l := Value(durationTotals, l) + duration];
    }

    method DrainKey(key: K)
      requires Valid() && key in rows
      modifies this
      ensures Valid()
      ensures Contents() == Step(shape, Step(shape, old(Contents()), Lookup(key)), Delete)
    {
      ghost var before := Contents();
      ghost var after := Step(shape, Step(shape, before, Lookup(key)), Delete);
      Publish(key, rows[key]);
      MatchAfterDrain(shape, labelOf, key, before, old(bucketTotals), bucketTotals,
                      old(countTotals), countTotals, old(durationTotals), durationTotals);
      rows := rows - {key};
      past := after.past;
      StepUnraced(shape, before, Lookup(key));
      StepUnraced(shape, Step(shape, before, Lookup(key)), Delete);
      forall x: L, i: nat ensures Sound(shape, after, i, Labelled(labelOf, x)) {
        AtomicDrainSound(shape, before, key, i, Labelled(labelOf, x));
      }
    }

    /** Exactness as a scraper sees it: published series, plus what is resident, plus what a full map
        refused, is what was recorded; and the `+Inf` series is the count series. */
    lemma Exactness(l: L, i: nat)
      requires Valid() && i < shape.buckets
      ensures var select := Labelled(labelOf, l);
              && Value(bucketTotals, (l, i)) + Resident(Le(i, select), Contents())
                 + Rejected(Le(i, select), Contents()) == Recorded(Le(i, select), Contents())
              && Value(countTotals, l) + Resident(Count(select), Contents())
                 + Rejected(Count(select), Contents()) == Recorded(Count(select), Contents())
      ensures Value(bucketTotals, (l, shape.buckets - 1)) == Value(countTotals, l)
    {
      var select := Labelled(labelOf, l);
      assert Sound(shape, Contents(), i, select);
      UnracedWeighsNothing(Le(i, select), Contents());
      UnracedWeighsNothing(Count(select), Contents());
      InfIsCount(shape, Contents(), shape.buckets - 1, select);
    }
  }
}
