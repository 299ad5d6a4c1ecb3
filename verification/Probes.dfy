/** The kernel-side probes over their shared maps. The functions say what each probe does to the
    maps; the class `ProbeMaps` is the probes' own step-by-step code, proved against them. */
module Probes {
  import opened Sums
  import opened Events
  import opened PerCpuTable

  /** `bpf_get_current_pid_tgid`. */
  datatype ThreadId = ThreadId(pid: nat, tid: nat)
  datatype Entry = Entry(timestamp: nat, arg0: nat, arg1: nat, arg2: nat, eventType: nat)
  datatype AggKey = AggKey(eventType: nat, pid: nat, memcpyKind: nat, errorCode: nat, stream: nat)
  datatype LaunchKey = LaunchKey(pid: nat, hostFun: nat, stream: nat)
  datatype CudaEvent = CudaEvent(eventType: nat, pid: nat, tid: nat, memcpyKind: nat, timestamp: nat,
                                 duration: nat, size: nat, addr: nat, stream: nat, errorCode: nat)

  /** SAMPLE_RATE, KERNEL_AGG_MODE and DETAILED_LAUNCHES are written once, before the probes are
      attached; the capacities are the `max_entries` of AGGREGATED and LAUNCH_AGG. */
  datatype Config = Config(cpus: nat, rate: nat, anonymous: bool, detailed: bool,
                           aggregatedSize: nat, launchSize: nat)

  const NCCL_AGG_SIZE := 1024

  function Multiplier(cfg: Config): (r: nat)
    ensures r > 0
  {
    if cfg.rate > 1 then cfg.rate else 1
  }

  function AggShape(cfg: Config): Shape { Shape(cfg.cpus, 14, cfg.aggregatedSize) }
  function NcclShape(cfg: Config): Shape { Shape(cfg.cpus, 12, NCCL_AGG_SIZE) }
  function LaunchShape(cfg: Config): Shape { Shape(cfg.cpus, 9, cfg.launchSize) }

  datatype Maps = Maps(
    inflight: map<ThreadId, Entry>,
    sampleCounter: seq<nat>,
    aggregated: map<AggKey, Row>,
    nccl: map<AggKey, Row>,
    launches: map<LaunchKey, Row>,
    launchDropped: seq<nat>,
    dropped: seq<nat>,
    ring: seq<CudaEvent>,
    upgraded: set<nat>,
    mallocSizes: map<(nat, nat), nat>,
    mallocPtrs: map<ThreadId, nat>)

  ghost predicate Good(cfg: Config, m: Maps) {
    && |m.sampleCounter| == |m.launchDropped| == |m.dropped| == cfg.cpus
    && WellFormed(AggShape(cfg), m.aggregated)
    && WellFormed(NcclShape(cfg), m.nccl)
    && WellFormed(LaunchShape(cfg), m.launches)
  }

  function Initial(cfg: Config): Maps {
    var zeros := seq(cfg.cpus, _ => 0);
    Maps(map[], zeros, map[], map[], map[], zeros, zeros, [], {}, map[], map[])
  }

  // ----- save_entry

  /** The sampling decision: the per-CPU counter moves only for aggregatable calls under sampling. */
  predicate Counted(cfg: Config, eventType: nat) {
    IsAggregatable(eventType) && cfg.rate > 1
  }

  ghost function SaveEntry(cfg: Config, m: Maps, id: ThreadId, cpu: nat, e: Entry): (r: Maps)
    requires Good(cfg, m) && cpu < cfg.cpus
    ensures Good(cfg, r)
    ensures r == m.(inflight := r.inflight, sampleCounter := r.sampleCounter)
    ensures id in m.inflight ==> r == m
    ensures r.inflight == m.inflight || r.inflight == m.inflight[id := e]
  {
    if id in m.inflight then m
    else if Counted(cfg, e.eventType) then
      var c := m.sampleCounter[cpu];
      var counted := m.(sampleCounter := m.sampleCounter[cpu := Wrap64(c + 1)]);
      if c % cfg.rate != 0 then counted else counted.(inflight := m.inflight[id := e])
    else m.(inflight := m.inflight[id := e])
  }

  // ----- emit_exit

  function Elapsed(e: Entry, now: nat): nat {
    if now > e.timestamp then now - e.timestamp else 0
  }

  function AggKeyOf(id: ThreadId, e: Entry, rc: nat): AggKey {
    AggKey(e.eventType, id.pid, Wrap32(e.arg1), rc, e.arg2)
  }

  function AggHit(cfg: Config, e: Entry, duration: nat): (h: Hit)
    ensures h.bucket < 14
  {
    Hit(Multiplier(cfg), duration, e.arg0, BucketIndex(CUDA_BOUNDS, duration))
  }

  function NcclKeyOf(id: ThreadId, e: Entry, rc: nat): AggKey {
    AggKey(e.eventType, id.pid, Wrap32(e.arg1), rc, 0)
  }

  function NcclHit(e: Entry, duration: nat): (h: Hit)
    ensures h.bucket < 12
  {
    var width := if e.arg1 < 10 then NCCL_DTYPE_SIZES[e.arg1] else 1;
    Hit(1, duration, Wrap64(e.arg0 * width), BucketIndex(NCCL_BOUNDS, duration))
  }

  /** Promotion overrides the cluster-wide anonymous mode for one process. */
  predicate Anonymous(cfg: Config, m: Maps, pid: nat) {
    cfg.anonymous && pid !in m.upgraded
  }

  function LaunchKeyOf(cfg: Config, m: Maps, id: ThreadId, e: Entry): LaunchKey {
    LaunchKey(id.pid, if Anonymous(cfg, m, id.pid) then 0 else e.arg0, e.arg2)
  }

  function LaunchHit(duration: nat): (h: Hit)
    ensures h.bucket < 9
  {
    Hit(1, duration, 0, BucketIndex(KERNEL_BOUNDS, duration))
  }

  function BumpDropped(counters: seq<nat>, cpu: nat): seq<nat>
    requires cpu < |counters|
  {
    counters[cpu := Wrap64(counters[cpu] + 1)]
  }

  function EventOf(id: ThreadId, e: Entry, now: nat, rc: nat): CudaEvent {
    CudaEvent(e.eventType, id.pid, id.tid, Wrap32(e.arg1), now, Elapsed(e, now), e.arg0, e.arg0, e.arg2, rc)
  }

  /** Where the entry of a thread goes when its call returns; each entry has one sink, except that a
      launch may be sent to the ring buffer as well. */
  datatype Sink = Nowhere | ToAggregated | ToNccl | ToLaunches | ToRing

  function SinkOf(m: Maps, id: ThreadId): Sink {
    if id !in m.inflight then Nowhere
    else
      var t := m.inflight[id].eventType;
      if IsAggregatable(t) then ToAggregated
      else if IsNccl(t) then ToNccl
      else if t == CUDA_LAUNCH_KERNEL then ToLaunches
      else ToRing
  }

  predicate Sent(cfg: Config, m: Maps, id: ThreadId) {
    || SinkOf(m, id) == ToRing
    || (SinkOf(m, id) == ToLaunches && !Anonymous(cfg, m, id.pid) && cfg.detailed)
  }

  ghost function AggregatedAfter(cfg: Config, m: Maps, id: ThreadId, cpu: nat, rc: nat, now: nat): (r: map<AggKey, Row>)
    requires Good(cfg, m) && cpu < cfg.cpus
    ensures WellFormed(AggShape(cfg), r)
  {
    if SinkOf(m, id) == ToAggregated then
      var e := m.inflight[id];
      Bump(AggShape(cfg), m.aggregated, AggKeyOf(id, e, rc), cpu, AggHit(cfg, e, Elapsed(e, now)))
    else m.aggregated
  }

  ghost function NcclAfter(cfg: Config, m: Maps, id: ThreadId, cpu: nat, rc: nat, now: nat): (r: map<AggKey, Row>)
    requires Good(cfg, m) && cpu < cfg.cpus
    ensures WellFormed(NcclShape(cfg), r)
  {
    if SinkOf(m, id) == ToNccl then
      var e := m.inflight[id];
      Bump(NcclShape(cfg), m.nccl, NcclKeyOf(id, e, rc), cpu, NcclHit(e, Elapsed(e, now)))
    else m.nccl
  }

  ghost function LaunchesAfter(cfg: Config, m: Maps, id: ThreadId, cpu: nat, now: nat): (r: map<LaunchKey, Row>)
    requires Good(cfg, m) && cpu < cfg.cpus
    ensures WellFormed(LaunchShape(cfg), r)
  {
    if SinkOf(m, id) == ToLaunches then
      var e := m.inflight[id];
      Bump(LaunchShape(cfg), m.launches, LaunchKeyOf(cfg, m, id, e), cpu, LaunchHit(Elapsed(e, now)))
    else m.launches
  }

  predicate LaunchRefused(cfg: Config, m: Maps, id: ThreadId) {
    SinkOf(m, id) == ToLaunches && !Accepts(LaunchShape(cfg), m.launches, LaunchKeyOf(cfg, m, id, m.inflight[id]))
  }

  /** Closing a thread's entry: one sink takes it, a full LAUNCH_AGG and a ring buffer without room
      are counted, and the entry leaves INFLIGHT whatever happened. */
  ghost function EmitExit(cfg: Config, m: Maps, id: ThreadId, cpu: nat, rc: nat, now: nat, room: bool): (r: Maps)
    requires Good(cfg, m) && cpu < cfg.cpus
    ensures Good(cfg, r)
  {
    m.(aggregated := AggregatedAfter(cfg, m, id, cpu, rc, now),
       nccl := NcclAfter(cfg, m, id, cpu, rc, now),
       launches := LaunchesAfter(cfg, m, id, cpu, now),
       launchDropped := if LaunchRefused(cfg, m, id) then BumpDropped(m.launchDropped, cpu) else m.launchDropped,
       ring := if Sent(cfg, m, id) && room then m.ring + [EventOf(id, m.inflight[id], now, rc)] else m.ring,
       dropped := if Sent(cfg, m, id) && !room then BumpDropped(m.dropped, cpu) else m.dropped,
       inflight := m.inflight - {id})
  }

  lemma LaunchExit(cfg: Config, m: Maps, id: ThreadId, cpu: nat, rc: nat, now: nat, room: bool)
    requires Good(cfg, m) && cpu < cfg.cpus && SinkOf(m, id) == ToLaunches
    ensures var r := EmitExit(cfg, m, id, cpu, rc, now, room);
            r.aggregated == m.aggregated && r.nccl == m.nccl
  {
  }

  // ----- malloc and free probes

  /** cudaMalloc entry: remembers where the pointer will be written, then `save_entry`. */
  ghost function MallocEntry(cfg: Config, m: Maps, id: ThreadId, cpu: nat, ptrToPtr: nat, e: Entry): (r: Maps)
    requires Good(cfg, m) && cpu < cfg.cpus
    ensures Good(cfg, r)
    ensures r == m.(inflight := r.inflight, sampleCounter := r.sampleCounter, mallocPtrs := r.mallocPtrs)
  {
    SaveEntry(cfg, if ptrToPtr != 0 then m.(mallocPtrs := m.mallocPtrs[id := ptrToPtr]) else m, id, cpu, e)
  }

  /** The pointer read back at return, 0 when the read failed: its size is tracked. */
  ghost function TrackMalloc(cfg: Config, m: Maps, id: ThreadId, devPtr: nat): (r: Maps)
    requires Good(cfg, m)
    ensures Good(cfg, r)
    ensures r == m.(mallocPtrs := m.mallocPtrs - {id}, mallocSizes := r.mallocSizes)
  {
    if id !in m.mallocPtrs then
      assert m.mallocPtrs == m.mallocPtrs - {id};
      m
    else
      var cleared := m.(mallocPtrs := m.mallocPtrs - {id});
      if id in m.inflight && devPtr != 0
      then cleared.(mallocSizes := m.mallocSizes[(id.pid, devPtr) := m.inflight[id].arg0])
      else cleared
  }

  ghost function MallocReturn(cfg: Config, m: Maps, id: ThreadId, cpu: nat, rc: nat, now: nat, devPtr: nat,
                              room: bool): (r: Maps)
    requires Good(cfg, m) && cpu < cfg.cpus
    ensures Good(cfg, r)
  {
    EmitExit(cfg, TrackMalloc(cfg, m, id, devPtr), id, cpu, rc, now, room)
  }

  function FreedSize(m: Maps, pid: nat, ptr: nat): nat {
    if ptr != 0 && (pid, ptr) in m.mallocSizes then m.mallocSizes[(pid, ptr)] else 0
  }

  /** cudaFree entry: the tracked size leaves MALLOC_SIZES and travels in `arg0`. */
  ghost function FreeEntry(cfg: Config, m: Maps, id: ThreadId, cpu: nat, ptr: nat, now: nat, stream: nat,
                           eventType: nat): (r: Maps)
    requires Good(cfg, m) && cpu < cfg.cpus
    ensures Good(cfg, r)
    ensures r == m.(inflight := r.inflight, sampleCounter := r.sampleCounter, mallocSizes := r.mallocSizes)
  {
    var untracked := if ptr != 0 then m.(mallocSizes := m.mallocSizes - {(id.pid, ptr)}) else m;
    SaveEntry(cfg, untracked, id, cpu, Entry(now, FreedSize(m, id.pid, ptr), 0, stream, eventType))
  }

  // ----- the probes themselves

  class ProbeMaps {
    const cfg: Config
    var inflight: map<ThreadId, Entry>
    var sampleCounter: seq<nat>
    var aggregated: map<AggKey, Row>
    var nccl: map<AggKey, Row>
    var launches: map<LaunchKey, Row>
    var launchDropped: seq<nat>
    var dropped: seq<nat>
    var ring: seq<CudaEvent>
    var upgraded: set<nat>
    var mallocSizes: map<(nat, nat), nat>
    var mallocPtrs: map<ThreadId, nat>

    ghost function State(): Maps
      reads this
    {
      Maps(inflight, sampleCounter, aggregated, nccl, launches, launchDropped, dropped, ring, upgraded,
           mallocSizes, mallocPtrs)
    }

    ghost predicate Valid()
      reads this
    {
      Good(cfg, State())
    }

    constructor (cfg: Config)
      ensures Valid() && State() == Initial(cfg) && this.cfg == cfg
    {
      this.cfg := cfg;
      var zeros := seq(cfg.cpus, _ => 0);
      inflight, sampleCounter, aggregated, nccl, launches := map[], zeros, map[], map[], map[];
      launchDropped, dropped, ring, upgraded := zeros, zeros, [], {};
      mallocSizes, mallocPtrs := map[], map[];
    }

    method Save(id: ThreadId, cpu: nat, e: Entry)
      requires Valid() && cpu < cfg.cpus
      modifies this`inflight, this`sampleCounter
      ensures State() == SaveEntry(cfg, old(State()), id, cpu, e) && Valid()
    {
      if id in inflight {
        return;
      }
      if IsAggregatable(e.eventType) {
        if cfg.rate > 1 {
          var c := sampleCounter[cpu];
          sampleCounter := sampleCounter[cpu := Wrap64(c + 1)];
          if c % cfg.rate != 0 {
            return;
          }
        }
      }
      inflight := inflight[id := e];
    }

    method EmitAggregated(id: ThreadId, cpu: nat, rc: nat, now: nat, ghost room: bool)
      requires Valid() && cpu < cfg.cpus && SinkOf(State(), id) == ToAggregated
      modifies this`inflight, this`aggregated
      ensures State() == EmitExit(cfg, old(State()), id, cpu, rc, now, room) && Valid()
    {
      var e := inflight[id];
      var refused;
      aggregated, refused :=
        Update(AggShape(cfg), aggregated, AggKeyOf(id, e, rc), cpu, AggHit(cfg, e, Elapsed(e, now)));
      inflight := inflight - {id};
    }

    method EmitNccl(id: ThreadId, cpu: nat, rc: nat, now: nat, ghost room: bool)
      requires Valid() && cpu < cfg.cpus && SinkOf(State(), id) == ToNccl
      modifies this`inflight, this`nccl
      ensures State() == EmitExit(cfg, old(State()), id, cpu, rc, now, room) && Valid()
    {
      var e := inflight[id];
      var refused;
      nccl, refused := Update(NcclShape(cfg), nccl, NcclKeyOf(id, e, rc), cpu, NcclHit(e, Elapsed(e, now)));
      inflight := inflight - {id};
    }

    /** Launches are always counted in LAUNCH_AGG; says whether the launch is to be sent as well. */
    method RecordLaunch(id: ThreadId, cpu: nat, now: nat) returns (send: bool)
      requires Valid() && cpu < cfg.cpus && SinkOf(State(), id) == ToLaunches
      modifies this`launches, this`launchDropped
      ensures launches == LaunchesAfter(cfg, old(State()), id, cpu, now)
      ensures launchDropped == if old(LaunchRefused(cfg, State(), id)) then BumpDropped(old(launchDropped), cpu)
                               else old(launchDropped)
      ensures send == old(Sent(cfg, State(), id))
    {
      var e := inflight[id];
      var anonymous := if id.pid in upgraded then false else cfg.anonymous;
      var key := LaunchKey(id.pid, if anonymous then 0 else e.arg0, e.arg2);
      assert key == LaunchKeyOf(cfg, State(), id, e);
      var refused;
      launches, refused := Update(LaunchShape(cfg), launches, key, cpu, LaunchHit(Elapsed(e, now)));
      if refused {
        launchDropped := BumpDropped(launchDropped, cpu);
      }
      send := !(anonymous || !cfg.detailed);
    }

    /** The tail of the probe: the ring buffer when the event is to be sent, then INFLIGHT. */
    method Finish(id: ThreadId, event: CudaEvent, send: bool, cpu: nat, room: bool)
      requires cpu < |dropped|
      modifies this`dropped, this`ring, this`inflight
      ensures ring == if send && room then old(ring) + [event] else old(ring)
      ensures dropped == if send && !room then BumpDropped(old(dropped), cpu) else old(dropped)
      ensures inflight == old(inflight) - {id}
    {
      if send {
        if room {
          ring := ring + [event];
        } else {
          dropped := BumpDropped(dropped, cpu);
        }
      }
      inflight := inflight - {id};
    }

    method EmitLaunch(id: ThreadId, cpu: nat, rc: nat, now: nat, room: bool)
      requires Valid() && cpu < cfg.cpus && SinkOf(State(), id) == ToLaunches
      modifies this`inflight, this`launches, this`launchDropped, this`dropped, this`ring
      ensures State() == EmitExit(cfg, old(State()), id, cpu, rc, now, room) && Valid()
    {
      LaunchExit(cfg, State(), id, cpu, rc, now, room);
      var event := EventOf(id, inflight[id], now, rc);
      var send := RecordLaunch(id, cpu, now);
      Finish(id, event, send, cpu, room);
    }

    method EmitOther(id: ThreadId, cpu: nat, rc: nat, now: nat, room: bool)
      requires Valid() && cpu < cfg.cpus && SinkOf(State(), id) == ToRing
      modifies this`inflight, this`dropped, this`ring
      ensures State() == EmitExit(cfg, old(State()), id, cpu, rc, now, room) && Valid()
    {
      Finish(id, EventOf(id, inflight[id], now, rc), true, cpu, room);
    }

    method Emit(id: ThreadId, cpu: nat, rc: nat, now: nat, room: bool)
      requires Valid() && cpu < cfg.cpus
      modifies this`inflight, this`aggregated, this`nccl, this`launches, this`launchDropped, this`dropped, this`ring
      ensures State() == EmitExit(cfg, old(State()), id, cpu, rc, now, room) && Valid()
    {
      if id !in inflight {
        assert inflight == inflight - {id};
      } else if IsAggregatable(inflight[id].eventType) {
        EmitAggregated(id, cpu, rc, now, room);
      } else if IsNccl(inflight[id].eventType) {
        EmitNccl(id, cpu, rc, now, room);
      } else if inflight[id].eventType == CUDA_LAUNCH_KERNEL {
        EmitLaunch(id, cpu, rc, now, room);
      } else {
        EmitOther(id, cpu, rc, now, room);
      }
    }

    method CudaMalloc(id: ThreadId, cpu: nat, ptrToPtr: nat, e: Entry)
      requires Valid() && cpu < cfg.cpus
      modifies this`inflight, this`sampleCounter, this`mallocPtrs
      ensures State() == MallocEntry(cfg, old(State()), id, cpu, ptrToPtr, e) && Valid()
    {
      if ptrToPtr != 0 {
        mallocPtrs := mallocPtrs[id := ptrToPtr];
      }
      Save(id, cpu, e);
    }

    method CudaMallocRet(id: ThreadId, cpu: nat, rc: nat, now: nat, devPtr: nat, room: bool)
      requires Valid() && cpu < cfg.cpus
      modifies this
      ensures State() == MallocReturn(cfg, old(State()), id, cpu, rc, now, devPtr, room) && Valid()
    {
      if id in mallocPtrs {
        mallocPtrs := mallocPtrs - {id};
        if id in inflight {
          if devPtr != 0 {
            mallocSizes := mallocSizes[(id.pid, devPtr) := inflight[id].arg0];
          }
        }
      }
      Emit(id, cpu, rc, now, room);
    }

    method CudaFree(id: ThreadId, cpu: nat, ptr: nat, now: nat, stream: nat, eventType: nat)
      requires Valid() && cpu < cfg.cpus
      modifies this`inflight, this`sampleCounter, this`mallocSizes
      ensures State() == FreeEntry(cfg, old(State()), id, cpu, ptr, now, stream, eventType) && Valid()
    {
      ghost var before := mallocSizes;
      var freed := 0;
      if ptr != 0 {
        if (id.pid, ptr) in mallocSizes {
          freed := mallocSizes[(id.pid, ptr)];
          mallocSizes := mallocSizes - {(id.pid, ptr)};
        }
        assert mallocSizes == before - {(id.pid, ptr)};
      }
      Save(id, cpu, Entry(now, freed, 0, stream, eventType));
    }
  }
}
