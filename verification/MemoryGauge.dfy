/** The active-memory gauge: what the drain makes of the sizes it publishes, tick after tick, and that
    it shows the live bytes. */
module MemoryGauge {
  import opened Sums
  import opened Events
  import opened PerCpuTable
  import opened Histograms
  import opened AggregateDrain
  import opened Probes
  import opened Pipeline
  import opened PipelineExactness
  import opened ActiveMemory

  const I63: int := 0x8000_0000_0000_0000

  predicate InRange(x: int) {
    -I63 <= x < I63
  }

  /** `r` is the 64-bit number that a sum of exact value `x` leaves. */
  ghost predicate Holds(r: int, x: int) {
    InRange(r) && Divides(U64, r - x)
  }

  /** An `i64` holding `x`. */
  function Signed(x: int): (r: int)
    ensures Holds(r, x)
  {
    var j: int := 0 - (x + I63) / U64;
    assert (x + I63) % U64 - I63 - x == U64 * j;
    (x + I63) % U64 - I63
  }

  lemma HoldsSmall(x: int, y: int)
    requires Holds(x, y) && InRange(y)
    ensures x == y
  {
    var j: int :| x - y == U64 * j;
    assert j == 0;
  }

  /** The gauge of a process, 0 before it has one. */
  function Known(m: map<nat, int>, pid: nat): int {
    if pid in m then m[pid] else 0
  }

  // ----- one tick

  /** What a drained size does to the delta of its process, in 64 bits. */
  function Moved(key: AggKey, size: nat, x: int): int {
    if IsMalloc(key.eventType) then Signed(x + Signed(size))
    else if IsFree(key.eventType) then Signed(x - Signed(size))
    else x
  }

  predicate Moves(key: AggKey, size: nat) {
    size > 0 && (IsMalloc(key.eventType) || IsFree(key.eventType))
  }

  /** One delta per process from the drained sizes. */
  function DeltasOf(rows: seq<(AggKey, nat)>): map<nat, int> {
    if rows == [] then map[]
    else
      var before, (key, size) := DeltasOf(rows[..|rows| - 1]), rows[|rows| - 1];
      if Moves(key, size) then before[key.pid := Moved(key, size, Known(before, key.pid))] else before
  }

  /** The deltas added to the gauges. */
  function Applied(active: map<nat, int>, delta: map<nat, int>): map<nat, int> {
    map pid | pid in active.Keys + delta.Keys ::
      if pid in delta then Signed(Known(active, pid) + delta[pid]) else active[pid]
  }

  method Deltas(rows: seq<(AggKey, nat)>) returns (delta: map<nat, int>)
    ensures delta == DeltasOf(rows)
    ensures forall pid :: pid in delta ==> InRange(delta[pid])
    ensures forall pid :: pid in delta ==> exists e :: e in rows && e.0.pid == pid
  {
    delta := map[];
    for i := 0 to |rows|
      invariant delta == DeltasOf(rows[..i])
      invariant forall pid :: pid in delta ==> InRange(delta[pid])
      invariant forall pid :: pid in delta ==> exists e :: e in rows && e.0.pid == pid
    {
      assert rows[..i + 1][..i] == rows[..i];
      var (key, size) := rows[i];
      assert rows[i] in rows;
      if size > 0 {
        if IsMalloc(key.eventType) {
          delta := delta[key.pid := Signed(Known(delta, key.pid) + Signed(size))];
        } else if IsFree(key.eventType) {
          delta := delta[key.pid := Signed(Known(delta, key.pid) - Signed(size))];
        }
      }
    }
    assert rows[..|rows|] == rows;
  }

  method ApplyDeltas(active: map<nat, int>, delta: map<nat, int>) returns (r: map<nat, int>)
    ensures r == Applied(active, delta)
  {
    r := active;
    var todo := delta.Keys;
    while todo != {}
      invariant todo <= delta.Keys && r.Keys == active.Keys + (delta.Keys - todo)
      invariant forall pid :: pid in delta && pid !in todo ==> r[pid] == Signed(Known(active, pid) + delta[pid])
      invariant forall pid :: pid in active && (pid in todo || pid !in delta) ==> r[pid] == active[pid]
    {
      var pid :| pid in todo;
      r := r[pid := Signed(Known(r, pid) + delta[pid])];
      todo := todo - {pid};
    }
    assert r.Keys == Applied(active, delta).Keys;
  }

  /** One drain tick: the sizes become one delta per process and the deltas move the gauges; a process
      without rows keeps its gauge. */
  method UpdateActiveMemory(active: map<nat, int>, rows: seq<(AggKey, nat)>) returns (r: map<nat, int>)
    ensures r == Applied(active, DeltasOf(rows))
    ensures forall pid :: pid in active && (forall e :: e in rows ==> e.0.pid != pid) ==>
              pid in r && r[pid] == active[pid]
    ensures (forall pid :: pid in active ==> InRange(active[pid])) ==> forall pid :: pid in r ==> InRange(r[pid])
  {
    var delta := Deltas(rows);
    r := ApplyDeltas(active, delta);
  }

  /** Bytes a drained size adds to the gauge of `pid`. */
  function NetOf(pid: nat): ((AggKey, nat)) -> int {
    (e: (AggKey, nat)) => Net(e.0, e.1, pid)
  }

  function Net(key: AggKey, size: int, pid: nat): int {
    if key.pid != pid then 0
    else if IsMalloc(key.eventType) then size
    else if IsFree(key.eventType) then -size
    else 0
  }

  lemma MovedNet(key: AggKey, size: nat, x: int, exact: int)
    requires Divides(U64, x - exact) && Moves(key, size)
    ensures Divides(U64, Moved(key, size, x) - (exact + Net(key, size, key.pid)))
  {
    DividesSum(U64, x - exact, Signed(size) - size);
    if IsMalloc(key.eventType) {
      DividesSum(U64, Signed(x + Signed(size)) - (x + Signed(size)), x + Signed(size) - (exact + size));
    } else {
      DividesSum(U64, Signed(x - Signed(size)) - (x - Signed(size)), x - Signed(size) - (exact - size));
    }
  }

  lemma {:induction false} DeltasNet(rows: seq<(AggKey, nat)>, pid: nat)
    ensures Divides(U64, Known(DeltasOf(rows), pid) - SumOver(rows, NetOf(pid)))
  {
    if rows == [] {
      DividesZero(U64);
    } else {
      var n := |rows| - 1;
      DeltasNet(rows[..n], pid);
      var (key, size) := rows[n];
      if Moves(key, size) && key.pid == pid {
        MovedNet(key, size, Known(DeltasOf(rows[..n]), pid), SumOver(rows[..n], NetOf(pid)));
      }
    }
  }

  lemma AppliedNet(active: map<nat, int>, rows: seq<(AggKey, nat)>, pid: nat, exact: int)
    requires Divides(U64, Known(active, pid) - exact)
    ensures Divides(U64, Known(Applied(active, DeltasOf(rows)), pid) - (exact + SumOver(rows, NetOf(pid))))
  {
    var delta := DeltasOf(rows);
    DeltasNet(rows, pid);
    DividesSum(U64, Known(active, pid) - exact, Known(delta, pid) - SumOver(rows, NetOf(pid)));
    if pid in delta {
      var sum := Known(active, pid) + delta[pid];
      DividesSum(U64, Signed(sum) - sum, sum - (exact + SumOver(rows, NetOf(pid))));
    }
  }

  // ----- many ticks

  /** The rows one drain published, with their 64-bit sizes; a row without a count is passed over. */
  function TickRows(drained: seq<(AggKey, Row)>): seq<(AggKey, nat)> {
    if drained == [] then []
    else
      var before, (key, row) := TickRows(drained[..|drained| - 1]), drained[|drained| - 1];
      if RowWeight(CountWeight(), row) > 0 then before + [(key, SizeTotal(row))] else before
  }

  /** The gauges after a sequence of ticks, each with the rows it drained. */
  function GaugeAfter(ticks: seq<seq<(AggKey, Row)>>): map<nat, int> {
    if ticks == [] then map[]
    else Applied(GaugeAfter(ticks[..|ticks| - 1]), DeltasOf(TickRows(ticks[|ticks| - 1])))
  }

  function Flat(ticks: seq<seq<(AggKey, Row)>>): seq<(AggKey, Row)> {
    if ticks == [] then [] else Flat(ticks[..|ticks| - 1]) + ticks[|ticks| - 1]
  }

  ghost predicate ExactTicks(shape: Shape, ticks: seq<seq<(AggKey, Row)>>) {
    forall i, j :: 0 <= i < |ticks| && 0 <= j < |ticks[i]| ==> ExactRow(shape, ticks[i][j].1)
  }

  /** The sizes one drain hands over. */
  method DrainSizes(shape: Shape, drained: seq<(AggKey, Row)>) returns (rows: seq<(AggKey, nat)>)
    requires shape.cpus < U32 && forall j :: 0 <= j < |drained| ==> ExactRow(shape, drained[j].1)
    ensures rows == TickRows(drained)
  {
    rows := [];
    for j := 0 to |drained|
      invariant rows == TickRows(drained[..j])
    {
      assert drained[..j + 1][..j] == drained[..j];
      var count, duration, size, buckets := SumPerCpu(shape, drained[j].1);
      if count != 0 {
        rows := rows + [(drained[j].0, size)];
      }
    }
    assert drained[..|drained|] == drained;
  }

  /** The event loop's ticks, one after the other. */
  method RunTicks(shape: Shape, ticks: seq<seq<(AggKey, Row)>>) returns (gauge: map<nat, int>)
    requires shape.cpus < U32 && ExactTicks(shape, ticks)
    ensures gauge == GaugeAfter(ticks)
  {
    gauge := map[];
    for i := 0 to |ticks|
      invariant gauge == GaugeAfter(ticks[..i])
    {
      assert ticks[..i + 1][..i] == ticks[..i];
      var rows := DrainSizes(shape, ticks[i]);
      gauge := UpdateActiveMemory(gauge, rows);
    }
    assert ticks[..|ticks|] == ticks;
  }

  /** Bytes a drained row adds to the gauge of `pid`, unwrapped. */
  function RowNet(pid: nat): ((AggKey, Row)) -> int {
    (e: (AggKey, Row)) => Net(e.0, RowWeight(SizeWeight(), e.1), pid)
  }

  ghost predicate AllCounted(drained: seq<(AggKey, Row)>) {
    forall e :: 0 <= e < |drained| ==> RowWeight(CountWeight(), drained[e].1) > 0
  }

  lemma {:induction false} TickNet(drained: seq<(AggKey, Row)>, pid: nat)
    requires AllCounted(drained)
    ensures Divides(U64, SumOver(TickRows(drained), NetOf(pid)) - SumOver(drained, RowNet(pid)))
  {
    if drained == [] {
      DividesZero(U64);
    } else {
      var n := |drained| - 1;
      var (key, row) := drained[n];
      TickNet(drained[..n], pid);
      TotalsAre(row);
      SumOverAppend(TickRows(drained[..n]), (key, SizeTotal(row)), NetOf(pid));
      DividesSum(U64, SumOver(TickRows(drained[..n]), NetOf(pid)) - SumOver(drained[..n], RowNet(pid)),
                 SizeTotal(row) - RowWeight(SizeWeight(), row));
    }
  }

  lemma TickApplied(gauge: map<nat, int>, tick: seq<(AggKey, Row)>, pid: nat, exact: int)
    requires AllCounted(tick) && Divides(U64, Known(gauge, pid) - exact)
    ensures Divides(U64, Known(Applied(gauge, DeltasOf(TickRows(tick))), pid) - (exact + SumOver(tick, RowNet(pid))))
  {
    TickNet(tick, pid);
    AppliedNet(gauge, TickRows(tick), pid, exact);
    var rows := SumOver(TickRows(tick), NetOf(pid));
    assert exact + rows - (exact + SumOver(tick, RowNet(pid))) == rows - SumOver(tick, RowNet(pid));
    CongruentTrans(U64, Known(Applied(gauge, DeltasOf(TickRows(tick))), pid),
                   exact + rows, exact + SumOver(tick, RowNet(pid)));
  }

  lemma FlatCounted(before: seq<(AggKey, Row)>, tick: seq<(AggKey, Row)>)
    requires AllCounted(before + tick)
    ensures AllCounted(before) && AllCounted(tick)
  {
    assert forall e :: 0 <= e < |before| ==> (before + tick)[e] == before[e];
    assert forall e :: 0 <= e < |tick| ==> (before + tick)[|before| + e] == tick[e];
  }

  /** Whatever was drained in which tick, the gauge is congruent to the net bytes. */
  lemma {:induction false} GaugeNet(ticks: seq<seq<(AggKey, Row)>>, pid: nat)
    requires AllCounted(Flat(ticks))
    ensures Divides(U64, Known(GaugeAfter(ticks), pid) - SumOver(Flat(ticks), RowNet(pid)))
  {
    if ticks == [] {
      DividesZero(U64);
    } else {
      var n := |ticks| - 1;
      FlatCounted(Flat(ticks[..n]), ticks[n]);
      GaugeNet(ticks[..n], pid);
      SumOverConcat(Flat(ticks[..n]), ticks[n], RowNet(pid));
      TickApplied(GaugeAfter(ticks[..n]), ticks[n], pid, SumOver(Flat(ticks[..n]), RowNet(pid)));
    }
  }

  /** And it is always a 64-bit number. */
  lemma {:induction false} GaugeInRange(ticks: seq<seq<(AggKey, Row)>>, pid: nat)
    ensures InRange(Known(GaugeAfter(ticks), pid))
  {
    if ticks != [] {
      GaugeInRange(ticks[..|ticks| - 1], pid);
    }
  }

  // ----- inside a run

  lemma {:induction false} NetIsPublished(drained: seq<(AggKey, Row)>, pid: nat)
    ensures SumOver(drained, RowNet(pid)) ==
            SumOver(drained, DrainWeight(Size(MallocOf(pid)))) - SumOver(drained, DrainWeight(Size(FreeOf(pid))))
  {
    if drained != [] {
      NetIsPublished(drained[..|drained| - 1], pid);
    }
  }

  /** Every row in AGGREGATED, and every row drained, holds a hit. */
  ghost predicate Hits(s: System) {
    AllLive(s.maps.aggregated) && AllCounted(s.agg.drained)
  }

  lemma StepHits(shape: Shape, t: Table<AggKey>, a: Action<AggKey>)
    requires Enabled(shape, t, a) && AllExact(t.rows) && Fits(shape, t, a) && (a.Record? ==> a.hit.mul > 0)
    requires AllLive(t.rows) && AllCounted(t.past.drained)
    ensures AllLive(Step(shape, t, a).rows) && AllCounted(Step(shape, t, a).past.drained)
  {
    if a.Record? {
      RecordLive(shape, t, a);
    }
  }

  lemma {:induction false} RunHits(cfg: Config, states: seq<System>, events: seq<Event>, k: nat)
    requires IsRun(cfg, states, events) && AggRoomy(cfg, states, events) && k <= |events|
    ensures Hits(states[k])
  {
    if k > 0 {
      var s, a := states[k - 1], events[k - 1];
      RunHits(cfg, states, events, k - 1);
      AggRunExact(cfg, states, events, k - 1, 0, MallocOf(0));
      NextAgg(cfg, s, a);
      var acts := AggActions(cfg, s, a);
      if acts != [] {
        StepHits(AggShape(cfg), AggTable(s), acts[0]);
      }
    }
  }

  /** Nothing of the process is resident, refused, raced or in flight. */
  ghost predicate Quiescent(s: System, pid: nat) {
    && s.agg.pending == []
    && (forall k :: k in s.maps.aggregated ==> k.pid != pid)
    && Raced(Size(MallocOf(pid)), AggTable(s)) == Raced(Size(FreeOf(pid)), AggTable(s)) == 0
    && Rejected(Size(MallocOf(pid)), AggTable(s)) == Rejected(Size(FreeOf(pid)), AggTable(s)) == 0
    && (forall id :: id in s.maps.inflight ==> id.pid != pid)
  }

  lemma QuiescentResident(s: System, pid: nat)
    requires Quiescent(s, pid)
    ensures Resident(Size(MallocOf(pid)), AggTable(s)) == Resident(Size(FreeOf(pid)), AggTable(s)) == 0
    ensures Freeing(s.maps, pid) == 0
  {
    SumSetZero(s.maps.aggregated.Keys, KeyWeight(Size(MallocOf(pid)), s.maps.aggregated));
    SumSetZero(s.maps.aggregated.Keys, KeyWeight(Size(FreeOf(pid)), s.maps.aggregated));
    SumSetZero(s.maps.inflight.Keys, FreeingOf(pid, s.maps.inflight));
  }

  lemma {:induction false} SumSetZero<T(!new)>(s: set<T>, f: T -> int)
    requires forall x :: x in s ==> f(x) == 0
    ensures SumSet(s, f) == 0
    decreases s
  {
    if s != {} {
      var x :| x in s;
      SumSetPick(s, x, f);
      SumSetZero(s - {x}, f);
    }
  }

  lemma PublishedIsLive(cfg: Config, states: seq<System>, events: seq<Event>, k: nat, pid: nat)
    requires IsRun(cfg, states, events) && cfg.rate <= 1 && k <= |events| && Quiescent(states[k], pid)
    ensures Divides(U64, SumOver(states[k].agg.drained, RowNet(pid))
                         - (Live(states[k].maps, pid) + TotalDrift(cfg, states, events, k, pid)))
  {
    NetIsPublished(states[k].agg.drained, pid);
    MemoryDrifts(cfg, states, events, k, pid);
    QuiescentResident(states[k], pid);
  }

  /** In every run, however the drained rows fall into ticks, the gauge of a quiescent process shows its
      live bytes plus the drift, as a 64-bit number. */
  lemma GaugeShowsLive(cfg: Config, states: seq<System>, events: seq<Event>, k: nat, pid: nat,
                       ticks: seq<seq<(AggKey, Row)>>)
    requires IsRun(cfg, states, events) && cfg.rate <= 1 && AggRoomy(cfg, states, events) && k <= |events|
    requires Flat(ticks) == states[k].agg.drained && Quiescent(states[k], pid)
    ensures Holds(Known(GaugeAfter(ticks), pid), Live(states[k].maps, pid) + TotalDrift(cfg, states, events, k, pid))
  {
    RunHits(cfg, states, events, k);
    PublishedIsLive(cfg, states, events, k, pid);
    GaugeOf(ticks, states[k].agg.drained, pid, Live(states[k].maps, pid) + TotalDrift(cfg, states, events, k, pid));
  }

  lemma GaugeOf(ticks: seq<seq<(AggKey, Row)>>, drained: seq<(AggKey, Row)>, pid: nat, live: int)
    requires Flat(ticks) == drained && AllCounted(drained) && Divides(U64, SumOver(drained, RowNet(pid)) - live)
    ensures Holds(Known(GaugeAfter(ticks), pid), live)
  {
    GaugeNet(ticks, pid);
    GaugeInRange(ticks, pid);
    CongruentTrans(U64, Known(GaugeAfter(ticks), pid), SumOver(drained, RowNet(pid)), live);
  }

  /** In orderly runs that is the live bytes. */
  lemma GaugeIsLive(cfg: Config, states: seq<System>, events: seq<Event>, k: nat, pid: nat,
                    ticks: seq<seq<(AggKey, Row)>>)
    requires IsRun(cfg, states, events) && cfg.rate <= 1 && OrderlyRun(cfg, states, events)
    requires AggRoomy(cfg, states, events)
    requires k <= |events| && Flat(ticks) == states[k].agg.drained && Quiescent(states[k], pid)
    ensures Holds(Known(GaugeAfter(ticks), pid), Live(states[k].maps, pid))
    ensures Live(states[k].maps, pid) < I63 ==> Known(GaugeAfter(ticks), pid) == Live(states[k].maps, pid)
  {
    RunOrderly(cfg, states, events, k, pid);
    GaugeShowsLive(cfg, states, events, k, pid, ticks);
    LiveNotNegative(states[k].maps.mallocSizes.Keys, SizeOf(pid, states[k].maps.mallocSizes));
    if Live(states[k].maps, pid) < I63 {
      HoldsSmall(Known(GaugeAfter(ticks), pid), Live(states[k].maps, pid));
    }
  }

  lemma {:induction false} LiveNotNegative<T(!new)>(s: set<T>, f: T -> int)
    requires forall x :: x in s ==> f(x) >= 0
    ensures SumSet(s, f) >= 0
    decreases s
  {
    if s != {} {
      var x :| x in s;
      SumSetPick(s, x, f);
      LiveNotNegative(s - {x}, f);
    }
  }
}
