/** Sampling one aggregatable call in `rate` per CPU and multiplying by `rate` keeps the published
    counts within `cpus * (rate - 1)` of the truth, in every run. */
module Sampling {
  import opened Sums
  import opened Events
  import opened PerCpuTable
  import opened Histograms
  import opened Probes
  import opened Pipeline
  import opened Launches

  /** How many of the first `n` calls on a CPU are sampled. */
  function Taken(rate: nat): nat -> int
    requires rate > 0
  {
    (n: nat) => (n + rate - 1) / rate
  }

  lemma TakenNext(rate: nat, n: nat)
    requires rate > 0
    ensures Taken(rate)(n + 1) == Taken(rate)(n) + (if n % rate == 0 then 1 else 0)
  {
    var q, m := n / rate, n % rate;
    assert n == rate * q + m;
    if m == 0 {
      QuotientIs(n + rate - 1, rate, q, rate - 1);
      QuotientIs(n + rate, rate, q + 1, 0);
    } else {
      QuotientIs(n + rate - 1, rate, q + 1, m - 1);
      QuotientIs(n + rate, rate, q + 1, m);
    }
  }

  lemma TakenBounds(rate: nat, n: nat)
    requires rate > 0
    ensures n <= rate * Taken(rate)(n) <= n + rate - 1
  {
    var x := n + rate - 1;
    assert x == rate * (x / rate) + x % rate;
  }

  /** Summed over the CPUs: never below the true number, never above it by `rate - 1` per CPU. */
  lemma {:induction false} TakenTotal(rate: nat, passed: seq<nat>)
    requires rate > 0
    ensures SumOver(passed, Id()) <= rate * SumOver(passed, Taken(rate))
            <= SumOver(passed, Id()) + |passed| * (rate - 1)
  {
    if passed != [] {
      var n := |passed| - 1;
      TakenTotal(rate, passed[..n]);
      TakenBounds(rate, passed[n]);
      BoundsAdd(rate, n, SumOver(passed[..n], Id()), SumOver(passed[..n], Taken(rate)),
                passed[n], Taken(rate)(passed[n]));
    }
  }

  lemma BoundsAdd(rate: nat, n: nat, sum: int, taken: int, x: int, y: int)
    requires rate > 0 && sum <= rate * taken <= sum + n * (rate - 1) && x <= rate * y <= x + rate - 1
    ensures sum + x <= rate * (taken + y) <= sum + x + (n + 1) * (rate - 1)
  {
    assert rate * (taken + y) == rate * taken + rate * y;
    assert (n + 1) * (rate - 1) == n * (rate - 1) + (rate - 1);
  }

  // ----- the invariant

  function Sampled(inflight: map<ThreadId, Entry>): set<ThreadId> {
    set id | id in inflight && IsAggregatable(inflight[id].eventType)
  }

  ghost predicate LogOf(cfg: Config, s: System) {
    AllOf(Multiplier(cfg), s.agg.log) && AllOf(Multiplier(cfg), s.agg.rejected)
  }

  /** Sampled calls are in flight or logged; under sampling the per-CPU counter is `passed`. */
  ghost predicate Tally(cfg: Config, s: System) {
    && |s.passed| == cfg.cpus
    && |s.agg.log| + |Sampled(s.maps.inflight)| == SumOver(s.passed, Taken(Multiplier(cfg)))
    && (cfg.rate > 1 ==> s.maps.sampleCounter == s.passed)
  }

  ghost predicate CountersFit(s: System) {
    forall c :: 0 <= c < |s.passed| ==> s.passed[c] + 1 < U64
  }

  /** The entry is saved: the guard lets it pass and, under sampling, its turn has come. */
  predicate Takes(cfg: Config, m: Maps, id: ThreadId, cpu: nat, eventType: nat)
    requires cpu < |m.sampleCounter|
  {
    id !in m.inflight && (Counted(cfg, eventType) ==> m.sampleCounter[cpu] % cfg.rate == 0)
  }

  lemma SampledInsert(inflight: map<ThreadId, Entry>, id: ThreadId, e: Entry)
    requires id !in inflight
    ensures |Sampled(inflight[id := e])| == |Sampled(inflight)| + (if IsAggregatable(e.eventType) then 1 else 0)
  {
    if IsAggregatable(e.eventType) {
      assert Sampled(inflight[id := e]) == Sampled(inflight) + {id};
    } else {
      assert Sampled(inflight[id := e]) == Sampled(inflight);
    }
  }

  lemma SaveSampled(cfg: Config, m: Maps, id: ThreadId, cpu: nat, e: Entry)
    requires Good(cfg, m) && cpu < cfg.cpus
    ensures |Sampled(SaveEntry(cfg, m, id, cpu, e).inflight)| ==
            |Sampled(m.inflight)|
            + (if Takes(cfg, m, id, cpu, e.eventType) && IsAggregatable(e.eventType) then 1 else 0)
  {
    if id !in m.inflight {
      SampledInsert(m.inflight, id, e);
    }
  }

  lemma SaveTally(cfg: Config, s: System, id: ThreadId, cpu: nat, e: Entry)
    requires Healthy(cfg, s) && cpu < cfg.cpus && Tally(cfg, s) && CountersFit(s)
    ensures Tally(cfg, s.(maps := SaveEntry(cfg, s.maps, id, cpu, e), passed := Passing(s, id, cpu, e.eventType)))
  {
    SaveSampled(cfg, s.maps, id, cpu, e);
    if id !in s.maps.inflight && IsAggregatable(e.eventType) {
      var n := s.passed[cpu];
      TakenNext(Multiplier(cfg), n);
      SumOverUpdate(s.passed, cpu, n + 1, Taken(Multiplier(cfg)));
    }
  }

  lemma CloseTally(cfg: Config, s: System, a: Event)
    requires Ready(cfg, s, a) && (a.Exit? || a.MallocExit?) && Tally(cfg, s)
    ensures Tally(cfg, Close(cfg, s, a.id, a.cpu, a.rc, a.now, a.room))
  {
    if a.id in s.maps.inflight {
      var rest := s.maps.inflight - {a.id};
      if IsAggregatable(s.maps.inflight[a.id].eventType) {
        assert Sampled(s.maps.inflight) == Sampled(rest) + {a.id};
      } else {
        assert Sampled(s.maps.inflight) == Sampled(rest);
      }
    }
  }

  lemma OtherTally(cfg: Config, s: System, a: Event)
    requires Ready(cfg, s, a) && Tally(cfg, s)
    requires !a.Enter? && !a.MallocEnter? && !a.FreeEnter? && !a.Exit? && !a.MallocExit?
    ensures Tally(cfg, Next(cfg, s, a))
  {
  }

  lemma EntryTally(cfg: Config, s: System, a: Event)
    requires Ready(cfg, s, a) && Tally(cfg, s) && CountersFit(s) && (a.MallocEnter? || a.FreeEnter?)
    ensures Tally(cfg, Next(cfg, s, a))
  {
    match a
    case MallocEnter(id, cpu, ptr, e) =>
      var s0 := if ptr != 0 then s.(maps := s.maps.(mallocPtrs := s.maps.mallocPtrs[id := ptr])) else s;
      SaveTally(cfg, s0, id, cpu, e);
    case FreeEnter(id, cpu, ptr, now, stream, t) =>
      var s0 := if ptr != 0 then s.(maps := s.maps.(mallocSizes := s.maps.mallocSizes - {(id.pid, ptr)})) else s;
      SaveTally(cfg, s0, id, cpu, Entry(now, FreedSize(s.maps, id.pid, ptr), 0, stream, t));
  }

  lemma NextTally(cfg: Config, s: System, a: Event)
    requires Ready(cfg, s, a) && Tally(cfg, s) && CountersFit(s)
    ensures Tally(cfg, Next(cfg, s, a))
  {
    match a
    case Enter(id, cpu, e) => SaveTally(cfg, s, id, cpu, e);
    case MallocEnter(_, _, _, _) => EntryTally(cfg, s, a);
    case FreeEnter(_, _, _, _, _, _) => EntryTally(cfg, s, a);
    case Exit(_, _, _, _, _) => CloseTally(cfg, s, a);
    case MallocExit(id, _, _, _, _, devPtr) => CloseTally(cfg, s.(maps := TrackMalloc(cfg, s.maps, id, devPtr)), a);
    case _ => OtherTally(cfg, s, a);
  }

  lemma NextLogOf(cfg: Config, s: System, a: Event)
    requires Ready(cfg, s, a) && LogOf(cfg, s)
    ensures LogOf(cfg, Next(cfg, s, a))
  {
    NextAgg(cfg, s, a);
    var acts := AggActions(cfg, s, a);
    if acts != [] && acts[0].Record? {
      NoteKeeps(Multiplier(cfg), AggShape(cfg), AggTable(s), acts[0].key, acts[0].hit);
    }
  }

  ghost predicate CountsFit(cfg: Config, states: seq<System>, events: seq<Event>)
    requires IsRun(cfg, states, events)
  {
    forall j :: 0 <= j < |events| ==>
      && CountersFit(states[j])
      && CountRoomy(AggShape(cfg), AggTable(states[j]), AggActions(cfg, states[j], events[j]))
  }

  lemma StartTally(cfg: Config)
    ensures Tally(cfg, Start(cfg))
  {
    TakenBounds(Multiplier(cfg), 0);
    SumOverZero(Start(cfg).passed, Taken(Multiplier(cfg)));
    assert Sampled(Start(cfg).maps.inflight) == {};
  }

  lemma {:induction false} RunTally(cfg: Config, states: seq<System>, events: seq<Event>, k: nat)
    requires IsRun(cfg, states, events) && CountsFit(cfg, states, events) && k <= |events|
    ensures Tally(cfg, states[k]) && LogOf(cfg, states[k])
    ensures Conserved(Count(Every()), 0, AggTable(states[k]))
  {
    if k == 0 {
      EmptyConserved(Count<AggKey>(Every()), 0);
      StartTally(cfg);
    } else {
      RunTally(cfg, states, events, k - 1);
      var s, a := states[k - 1], events[k - 1];
      NextTally(cfg, s, a);
      NextLogOf(cfg, s, a);
      NextAgg(cfg, s, a);
      FollowCount(AggShape(cfg), AggTable(s), AggTable(states[k]), AggActions(cfg, s, a), Every());
    }
  }

  /** Everything AGGREGATED ever counted, wherever it went. */
  ghost function Tallied(s: System): int {
    var m, t := Count<AggKey>(Every()), AggTable(s);
    Published(m, t) + Resident(m, t) + Raced(m, t) + Rejected(m, t)
  }

  lemma CountedIsLogged(cfg: Config, s: System)
    requires LogOf(cfg, s) && Conserved(Count(Every()), 0, AggTable(s))
    ensures Tallied(s) == Multiplier(cfg) * |s.agg.log|
  {
    CountIsLength(Multiplier(cfg), s.agg.log);
  }

  lemma Distribute(a: int, b: int, c: int)
    ensures a * (b + c) == a * b + a * c
  {
  }

  lemma StateBound(cfg: Config, s: System)
    requires Tally(cfg, s) && LogOf(cfg, s) && Conserved(Count(Every()), 0, AggTable(s))
    ensures var rate, n := Multiplier(cfg), SumOver(s.passed, Id());
            n <= Tallied(s) + rate * |Sampled(s.maps.inflight)| <= n + cfg.cpus * (rate - 1)
  {
    CountedIsLogged(cfg, s);
    TakenTotal(Multiplier(cfg), s.passed);
    Distribute(Multiplier(cfg), |s.agg.log|, |Sampled(s.maps.inflight)|);
  }

  /** What is counted, lost to a full map or a raced delete, or still in flight, weighs between `n` and
      `n + cpus * (rate - 1)`, where `n` is the number of aggregatable entries past the guard. */
  lemma SamplingBound(cfg: Config, states: seq<System>, events: seq<Event>, k: nat)
    requires IsRun(cfg, states, events) && CountsFit(cfg, states, events) && k <= |events|
    ensures var s, rate := states[k], Multiplier(cfg);
            var n := SumOver(s.passed, Id());
            n <= Tallied(s) + rate * |Sampled(s.maps.inflight)| <= n + cfg.cpus * (rate - 1)
  {
    RunTally(cfg, states, events, k);
    StateBound(cfg, states[k]);
  }
}
