/** The per-CPU hash maps AGGREGATED, NCCL_AGG and LAUNCH_AGG as one step system: probes record hits
    on any CPU, userspace drains a key in two steps (lookup and publish, then delete), and every
    quantity that is additive in the hits is conserved over every run.

    A table is the rows of the map together with the history of what happened to it. */
module PerCpuTable {
  import opened Sums

  /** One per-CPU value: `AggValue`, `NcclAggValue`, or `LaunchAggValue` without its maximum. */
  datatype Cell = Cell(count: nat, durationSum: nat, sizeSum: nat, buckets: seq<nat>)

  /** What one completed call adds to a cell. */
  datatype Hit = Hit(mul: nat, duration: nat, size: nat, bucket: nat)

  /** Number of CPUs, buckets per cell and `max_entries`. */
  datatype Shape = Shape(cpus: nat, buckets: nat, capacity: nat)

  type Row = seq<Cell>

  function Zero(buckets: nat): Cell {
    Cell(0, 0, 0, seq(buckets, _ => 0))
  }

  /** The in-place update of a cell, with the widths of its fields: `u64` sums, `u32` buckets. */
  function Apply(c: Cell, h: Hit): Cell
    requires h.bucket < |c.buckets|
  {
    Cell(Wrap64(c.count + h.mul),
         Wrap64(c.durationSum + Wrap64(h.duration * h.mul)),
         Wrap64(c.sizeSum + Wrap64(h.size * h.mul)),
         c.buckets[h.bucket := Wrap32(c.buckets[h.bucket] + Wrap32(h.mul))])
  }

  function RowOf<K>(shape: Shape, rows: map<K, Row>, key: K): Row {
    if key in rows then rows[key] else seq(shape.cpus, _ => Zero(shape.buckets))
  }

  ghost predicate WellFormed<K(!new)>(shape: Shape, rows: map<K, Row>) {
    forall k :: k in rows ==> GoodRow(shape, rows[k])
  }

  predicate GoodRow(shape: Shape, row: Row) {
    |row| == shape.cpus && forall c :: 0 <= c < |row| ==> |row[c].buckets| == shape.buckets
  }

  /** A full map refuses new keys and nothing else. */
  predicate Accepts<K>(shape: Shape, rows: map<K, Row>, key: K) {
    key in rows || |rows| < shape.capacity
  }

  /** Lookup-or-insert of a hit on one CPU; a new row is zero on the other CPUs. */
  function Bump<K(!new)>(shape: Shape, rows: map<K, Row>, key: K, cpu: nat, h: Hit): (r: map<K, Row>)
    requires WellFormed(shape, rows) && cpu < shape.cpus && h.bucket < shape.buckets
    ensures WellFormed(shape, r)
  {
    if Accepts(shape, rows, key) then
      var row := RowOf(shape, rows, key);
      rows[key := row[cpu := Apply(row[cpu], h)]]
    else rows
  }

  /** The probe's update: in place when the row exists, otherwise an insert that a full map refuses. */
  method Update<K(==, !new)>(shape: Shape, rows: map<K, Row>, key: K, cpu: nat, h: Hit)
    returns (r: map<K, Row>, refused: bool)
    requires WellFormed(shape, rows) && cpu < shape.cpus && h.bucket < shape.buckets
    ensures r == Bump(shape, rows, key, cpu, h)
    ensures refused <==> !Accepts(shape, rows, key)
  {
    r, refused := rows, false;
    if key in rows {
      r := rows[key := rows[key][cpu := Apply(rows[key][cpu], h)]];
    } else if |rows| < shape.capacity {
      var zeros := seq(shape.cpus, _ => Zero(shape.buckets));
      r := rows[key := zeros[cpu := Apply(zeros[cpu], h)]];
    } else {
      refused := true;
    }
  }

  /** `log`: every hit offered. `rejected`: those a full map refused. `drained`: the rows published.
      `raced`: per deleted key, the row published and the row that was deleted. `pending`: the key
      published but not yet deleted. */
  datatype History<K> = History(
    log: seq<(K, Hit)>,
    rejected: seq<(K, Hit)>,
    drained: seq<(K, Row)>,
    raced: seq<(K, Row, Row)>,
    pending: seq<(K, Row)>)

  datatype Table<K> = Table(rows: map<K, Row>, past: History<K>)

  datatype Action<K> = Record(key: K, cpu: nat, hit: Hit) | Lookup(key: K) | Delete

  function Empty<K>(): Table<K> {
    Table(map[], History([], [], [], [], []))
  }

  function Note<K>(shape: Shape, t: Table<K>, key: K, h: Hit): History<K> {
    t.past.(log := t.past.log + [(key, h)],
            rejected := if Accepts(shape, t.rows, key) then t.past.rejected
                        else t.past.rejected + [(key, h)])
  }

  ghost predicate Enabled<K(!new)>(shape: Shape, t: Table<K>, a: Action<K>) {
    && WellFormed(shape, t.rows)
    && (t.past.pending == [] || (|t.past.pending| == 1 && t.past.pending[0].0 in t.rows))
    && match a
       case Record(_, cpu, h) => cpu < shape.cpus && h.bucket < shape.buckets
       case Lookup(key) => key in t.rows && t.past.pending == []
       case Delete => t.past.pending != []
  }

  ghost function Step<K(!new)>(shape: Shape, t: Table<K>, a: Action<K>): Table<K>
    requires Enabled(shape, t, a)
  {
    match a
    case Record(key, cpu, h) => Table(Bump(shape, t.rows, key, cpu, h), Note(shape, t, key, h))
    case Lookup(key) =>
      var read := (key, t.rows[key]);
      t.(past := t.past.(drained := t.past.drained + [read], pending := [read]))
    case Delete =>
      var (key, snapshot) := t.past.pending[0];
      Table(t.rows - {key},
            t.past.(raced := t.past.raced + [(key, snapshot, t.rows[key])], pending := []))
  }

  // ----- additive quantities

  /** A quantity: `weigh` reads it off a cell, `value` is what a hit adds to it, and only the keys
      in `select` count. */
  datatype Measure<!K> = Measure(weigh: Cell -> int, value: Hit -> int, select: K -> bool)

  function RowWeight(weigh: Cell -> int, row: Row): int {
    SumOver(row, weigh)
  }

  function HitWeight<K>(m: Measure<K>): ((K, Hit)) -> int {
    (e: (K, Hit)) => if m.select(e.0) then m.value(e.1) else 0
  }

  function DrainWeight<K>(m: Measure<K>): ((K, Row)) -> int {
    (e: (K, Row)) => if m.select(e.0) then RowWeight(m.weigh, e.1) else 0
  }

  function RaceWeight<K>(m: Measure<K>): ((K, Row, Row)) -> int {
    (e: (K, Row, Row)) =>
      if m.select(e.0) then RowWeight(m.weigh, e.2) - RowWeight(m.weigh, e.1) else 0
  }

  function KeyWeight<K>(m: Measure<K>, rows: map<K, Row>): K -> int {
    (k: K) => if k in rows && m.select(k) then RowWeight(m.weigh, rows[k]) else 0
  }

  function Recorded<K>(m: Measure<K>, t: Table<K>): int { SumOver(t.past.log, HitWeight(m)) }

  function Rejected<K>(m: Measure<K>, t: Table<K>): int { SumOver(t.past.rejected, HitWeight(m)) }

  function Published<K>(m: Measure<K>, t: Table<K>): int { SumOver(t.past.drained, DrainWeight(m)) }

  /** What landed on a row between the lookup that published it and its deletion. */
  function Raced<K>(m: Measure<K>, t: Table<K>): int { SumOver(t.past.raced, RaceWeight(m)) }

  /** What the rows hold and userspace has not published yet. */
  ghost function Resident<K(!new)>(m: Measure<K>, t: Table<K>): int {
    SumSet(t.rows.Keys, KeyWeight(m, t.rows)) - SumOver(t.past.pending, DrainWeight(m))
  }

  /** The conservation law, modulo `modulus` (exact when it is 0). */
  ghost predicate Conserved<K(!new)>(m: Measure<K>, modulus: nat, t: Table<K>) {
    Divides(modulus, Published(m, t) + Resident(m, t) + Raced(m, t) + Rejected(m, t) - Recorded(m, t))
  }

  /** The quantity is additive at this step, up to a multiple of `modulus`. */
  ghost predicate Additive<K(!new)>(m: Measure<K>, modulus: nat, shape: Shape, t: Table<K>, a: Action<K>)
    requires Enabled(shape, t, a)
  {
    a.Record? && Accepts(shape, t.rows, a.key) ==>
      var c := RowOf(shape, t.rows, a.key)[a.cpu];
      Divides(modulus, m.weigh(Apply(c, a.hit)) - m.weigh(c) - m.value(a.hit))
  }

  lemma EmptyConserved<K(!new)>(m: Measure<K>, modulus: nat)
    ensures Conserved(m, modulus, Empty<K>())
  {
    DividesZero(modulus);
  }

  lemma RowOfWeight<K(!new)>(m: Measure<K>, shape: Shape, rows: map<K, Row>, key: K)
    requires m.weigh(Zero(shape.buckets)) == 0
    ensures key !in rows ==> RowWeight(m.weigh, RowOf(shape, rows, key)) == 0
  {
    if key !in rows {
      SumOverZero(RowOf(shape, rows, key), m.weigh);
    }
  }

  /** An accepted hit changes what is resident by what it changes in one cell. */
  lemma ResidentAfterRecord<K(!new)>(m: Measure<K>, shape: Shape, t: Table<K>, a: Action<K>)
    requires m.weigh(Zero(shape.buckets)) == 0
    requires Enabled(shape, t, a) && a.Record? && Accepts(shape, t.rows, a.key)
    ensures var c := RowOf(shape, t.rows, a.key)[a.cpu];
            Resident(m, Step(shape, t, a)) ==
            Resident(m, t) + (if m.select(a.key) then m.weigh(Apply(c, a.hit)) - m.weigh(c) else 0)
  {
    var rows' := Bump(shape, t.rows, a.key, a.cpu, a.hit);
    var row := RowOf(shape, t.rows, a.key);
    RowOfWeight(m, shape, t.rows, a.key);
    SumOverUpdate(row, a.cpu, Apply(row[a.cpu], a.hit), m.weigh);
    assert rows'.Keys == t.rows.Keys + {a.key};
    SumSetChange(t.rows.Keys, a.key, KeyWeight(m, t.rows), KeyWeight(m, rows'));
  }

  lemma RecordConserves<K(!new)>(m: Measure<K>, modulus: nat, shape: Shape, t: Table<K>, a: Action<K>)
    requires m.weigh(Zero(shape.buckets)) == 0
    requires Enabled(shape, t, a) && a.Record?
    requires Conserved(m, modulus, t) && Additive(m, modulus, shape, t, a)
    ensures Conserved(m, modulus, Step(shape, t, a))
  {
    var t' := Step(shape, t, a);
    SumOverAppend(t.past.log, (a.key, a.hit), HitWeight(m));
    assert Recorded(m, t') == Recorded(m, t) + HitWeight(m)((a.key, a.hit));
    if Accepts(shape, t.rows, a.key) {
      ResidentAfterRecord(m, shape, t, a);
      assert Published(m, t') == Published(m, t) && Raced(m, t') == Raced(m, t) && Rejected(m, t') == Rejected(m, t);
      if m.select(a.key) {
        var c := RowOf(shape, t.rows, a.key)[a.cpu];
        DividesSum(modulus,
                   Published(m, t) + Resident(m, t) + Raced(m, t) + Rejected(m, t) - Recorded(m, t),
                   m.weigh(Apply(c, a.hit)) - m.weigh(c) - m.value(a.hit));
      }
    } else {
      SumOverAppend(t.past.rejected, (a.key, a.hit), HitWeight(m));
    }
  }

  lemma DrainConserves<K(!new)>(m: Measure<K>, modulus: nat, shape: Shape, t: Table<K>, a: Action<K>)
    requires Enabled(shape, t, a) && !a.Record?
    requires Conserved(m, modulus, t)
    ensures Conserved(m, modulus, Step(shape, t, a))
  {
    var t' := Step(shape, t, a);
    if a.Lookup? {
      var read := (a.key, t.rows[a.key]);
      SumOverAppend(t.past.drained, read, DrainWeight(m));
      SumOverAppend([], read, DrainWeight(m));
      assert [] + [read] == t'.past.pending;
    } else {
      var read := t.past.pending[0];
      SumOverAppend([], read, DrainWeight(m));
      assert [] + [read] == t.past.pending;
      SumOverAppend(t.past.raced, (read.0, read.1, t.rows[read.0]), RaceWeight(m));
      assert t'.rows.Keys == t.rows.Keys - {read.0};
      SumSetDrop(t.rows.Keys, read.0, KeyWeight(m, t.rows), KeyWeight(m, t'.rows));
    }
  }

  lemma StepConserves<K(!new)>(m: Measure<K>, modulus: nat, shape: Shape, t: Table<K>, a: Action<K>)
    requires m.weigh(Zero(shape.buckets)) == 0
    requires Enabled(shape, t, a)
    requires Conserved(m, modulus, t) && Additive(m, modulus, shape, t, a)
    ensures Conserved(m, modulus, Step(shape, t, a))
  {
    if a.Record? {
      RecordConserves(m, modulus, shape, t, a);
    } else {
      DrainConserves(m, modulus, shape, t, a);
    }
  }

  /** A drain whose delete follows its lookup at once loses nothing. */
  lemma AtomicDrainRacesNothing<K(!new)>(m: Measure<K>, shape: Shape, t: Table<K>, key: K)
    requires Enabled(shape, t, Lookup(key))
    ensures Enabled(shape, Step(shape, t, Lookup(key)), Delete)
    ensures var t' := Step(shape, Step(shape, t, Lookup(key)), Delete);
            && Raced(m, t') == Raced(m, t)
            && t'.rows == t.rows - {key}
            && Published(m, t') == Published(m, t) + (if m.select(key) then RowWeight(m.weigh, t.rows[key]) else 0)
  {
    var read := (key, t.rows[key]);
    SumOverAppend(t.past.drained, read, DrainWeight(m));
    SumOverAppend(t.past.raced, (key, t.rows[key], t.rows[key]), RaceWeight(m));
  }

  /** Nothing landed on any row between its lookup and its deletion, nor on the one being drained. */
  ghost predicate Unraced<K(!new)>(t: Table<K>) {
    && (forall e :: 0 <= e < |t.past.raced| ==> t.past.raced[e].1 == t.past.raced[e].2)
    && (forall e :: 0 <= e < |t.past.pending| ==>
          t.past.pending[e].0 in t.rows && t.rows[t.past.pending[e].0] == t.past.pending[e].1)
  }

  /** While no hit comes between a lookup and its delete, nothing is raced. */
  lemma StepUnraced<K(!new)>(shape: Shape, t: Table<K>, a: Action<K>)
    requires Enabled(shape, t, a) && Unraced(t) && (t.past.pending != [] ==> a.Delete?)
    ensures Unraced(Step(shape, t, a))
  {
  }

  lemma UnracedWeighsNothing<K(!new)>(m: Measure<K>, t: Table<K>)
    requires Unraced(t)
    ensures Raced(m, t) == 0
  {
    SumOverZero(t.past.raced, RaceWeight(m));
  }
}
