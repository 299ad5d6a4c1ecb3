/** The handle cache as code: a struct of four maps changed in place, with its removal loops, against
    the registry it shares. Every method is proved to do what the functions of HandleCache say. */
module MetricCache {
  import opened Collections
  import opened Events
  import opened HandleCache

  /** The registered series of the metric families the cache fills, and two of its own metrics. */
  class Metrics {
    var registry: set<Series>
    var cardinalityDrops: nat
    var trackedPids: nat

    constructor ()
      ensures registry == {} && cardinalityDrops == 0 && trackedPids == 0
    {
      registry, cardinalityDrops, trackedPids := {}, 0, 0;
    }

    method WithLabelValues(family: Family, labels: Option<seq<Label>>)
      modifies this`registry
      ensures registry == old(registry) + (if labels.Some? then {Series(family, labels.value)} else {})
    {
      if labels.Some? {
        registry := registry + {Series(family, labels.value)};
      }
    }

    /** The registrations of `get_or_create`: call count and duration by kind of event, then whatever
        else the handle has. */
    method RegisterHandle(eventType: nat, h: Handle)
      modifies this`registry
      ensures registry == old(registry) + SeriesOf(eventType, h)
    {
      RegisterCalls(eventType, h);
      RegisterBytes(eventType, h);
      RegisterKernels(eventType, h);
      SeriesUnion(eventType, h);
    }

    method RegisterCalls(eventType: nat, h: Handle)
      modifies this`registry
      ensures registry == old(registry) + CallSeries(eventType, h)
    {
      if IsNccl(eventType) {
        WithLabelValues(NcclCalls, Some(h.calls));
        WithLabelValues(NcclDuration, Some(h.hist));
      } else {
        WithLabelValues(CudaCalls, Some(h.calls));
        WithLabelValues(CudaDuration, Some(h.hist));
      }
    }

    method RegisterBytes(eventType: nat, h: Handle)
      modifies this`registry
      ensures registry == old(registry) + ByteSeries(eventType, h)
    {
      WithLabelValues(NcclBytes, h.ncclBytes);
      WithLabelValues(MemcpyBytes, h.memcpy);
      WithLabelValues(MallocBytes, h.malloc);
    }

    method RegisterKernels(eventType: nat, h: Handle)
      modifies this`registry
      ensures registry == old(registry) + KernelSeries(eventType, h)
    {
      WithLabelValues(KernelLaunches, h.kernelCounter);
      WithLabelValues(KernelDuration, h.kernelHist);
      WithLabelValues(CudaErrors, h.errors);
    }

    method RemoveLabelValues(family: Family, labels: Option<seq<Label>>)
      modifies this`registry
      ensures registry == old(registry) - (if labels.Some? then {Series(family, labels.value)} else {})
    {
      if labels.Some? {
        registry := registry - {Series(family, labels.value)};
      }
    }

    /** `remove_handle_metrics`: call count and duration by kind of event, then whatever else is set. */
    method RemoveHandle(eventType: nat, h: Handle)
      modifies this`registry
      ensures registry == old(registry) - SeriesOf(eventType, h)
    {
      RemoveCalls(eventType, h);
      RemoveBytes(eventType, h);
      RemoveKernels(eventType, h);
      SeriesUnion(eventType, h);
    }

    method RemoveCalls(eventType: nat, h: Handle)
      modifies this`registry
      ensures registry == old(registry) - CallSeries(eventType, h)
    {
      if IsNccl(eventType) {
        RemoveLabelValues(NcclCalls, Some(h.calls));
        RemoveLabelValues(NcclDuration, Some(h.hist));
      } else {
        RemoveLabelValues(CudaCalls, Some(h.calls));
        RemoveLabelValues(CudaDuration, Some(h.hist));
      }
    }

    method RemoveBytes(eventType: nat, h: Handle)
      modifies this`registry
      ensures registry == old(registry) - ByteSeries(eventType, h)
    {
      RemoveLabelValues(MemcpyBytes, h.memcpy);
      RemoveLabelValues(MallocBytes, h.malloc);
      RemoveLabelValues(NcclBytes, h.ncclBytes);
    }

    method RemoveKernels(eventType: nat, h: Handle)
      modifies this`registry
      ensures registry == old(registry) - KernelSeries(eventType, h)
    {
      RemoveLabelValues(KernelLaunches, h.kernelCounter);
      RemoveLabelValues(KernelDuration, h.kernelHist);
      RemoveLabelValues(CudaErrors, h.errors);
    }
  }

  /** The series of a handle in one family, and in its three groups of families. */
  function One(eventType: nat, h: Handle, f: Family): set<Series> {
    if LabelsIn(eventType, h, f).Some? then {Series(f, LabelsIn(eventType, h, f).value)} else {}
  }

  function CallSeries(eventType: nat, h: Handle): set<Series> {
    if IsNccl(eventType) then {Series(NcclCalls, h.calls), Series(NcclDuration, h.hist)}
    else {Series(CudaCalls, h.calls), Series(CudaDuration, h.hist)}
  }

  function ByteSeries(eventType: nat, h: Handle): set<Series> {
    One(eventType, h, NcclBytes) + One(eventType, h, MemcpyBytes) + One(eventType, h, MallocBytes)
  }

  function KernelSeries(eventType: nat, h: Handle): set<Series> {
    One(eventType, h, KernelLaunches) + One(eventType, h, KernelDuration) + One(eventType, h, CudaErrors)
  }

  lemma InGroups(eventType: nat, h: Handle, x: Series)
    ensures x in CallSeries(eventType, h) <==>
            LabelsIn(eventType, h, x.family) == Some(x.labels)
            && x.family in {NcclCalls, NcclDuration, CudaCalls, CudaDuration}
    ensures x in ByteSeries(eventType, h) <==>
            LabelsIn(eventType, h, x.family) == Some(x.labels) && x.family in {NcclBytes, MemcpyBytes, MallocBytes}
    ensures x in KernelSeries(eventType, h) <==>
            LabelsIn(eventType, h, x.family) == Some(x.labels)
            && x.family in {KernelLaunches, KernelDuration, CudaErrors}
  {
  }

  /** The three groups miss no family. */
  lemma SeriesUnion(eventType: nat, h: Handle)
    ensures SeriesOf(eventType, h) == CallSeries(eventType, h) + ByteSeries(eventType, h) + KernelSeries(eventType, h)
  {
    forall x: Series
      ensures x in SeriesOf(eventType, h) <==>
              x in CallSeries(eventType, h) || x in ByteSeries(eventType, h) || x in KernelSeries(eventType, h)
    {
      InSeries(eventType, h, x);
      InGroups(eventType, h, x);
    }
  }

  /** The series behind each cached handle. */
  function Owned(handles: map<Key, Handle>): map<Key, set<Series>> {
    map k | k in handles :: SeriesOf(k.eventType, handles[k])
  }

  lemma SameKeys(handles: map<Key, Handle>)
    ensures Owned(handles).Keys == handles.Keys && |Owned(handles)| == |handles|
    ensures Pids(Owned(handles)) == set k | k in handles :: k.pid
  {
    assert |Owned(handles)| == |Owned(handles).Keys| && |handles| == |handles.Keys|;
  }

  class MetricHandleCache {
    const cfg: Settings
    const metrics: Metrics
    var handles: map<Key, Handle>
    var lastSeen: map<nat, nat>
    var streams: map<nat, set<nat>>
    var kernels: map<nat, set<nat>>

    ghost function State(): Cache
      reads this, metrics
    {
      Cache(Owned(handles), lastSeen, streams, kernels, metrics.registry, metrics.cardinalityDrops, metrics.trackedPids)
    }

    constructor (cfg: Settings, metrics: Metrics)
      ensures this.cfg == cfg && this.metrics == metrics
      ensures handles == map[] && lastSeen == map[] && streams == map[] && kernels == map[]
    {
      this.cfg, this.metrics := cfg, metrics;
      handles, lastSeen, streams, kernels := map[], map[], map[], map[];
    }

    /** The two per-process caps: look up, or admit while there is room, or collapse to 0. */
    static method Cap(sets: map<nat, set<nat>>, cap: nat, pid: nat, x: nat) returns (r: map<nat, set<nat>>, y: nat)
      ensures (r, y) == Collapse(sets, cap, pid, x)
    {
      r, y := sets, x;
      if x != 0 {
        var mine := if pid in sets then sets[pid] else {};
        r := sets[pid := mine];
        if x in mine {
        } else if |mine| < cap {
          r := sets[pid := mine + {x}];
        } else {
          y := 0;
        }
      }
    }

    method Canonicalise(wanted: Key) returns (key: Key)
      modifies this`streams, this`kernels
      ensures streams == WithStream(cfg, old(State()), wanted).0 && kernels == WithKernel(cfg, old(State()), wanted).0
      ensures key == Canonical(cfg, old(State()), wanted)
    {
      var stream, addr;
      streams, stream := Cap(streams, cfg.limits.maxStreams, wanted.pid, wanted.stream);
      addr := wanted.addr;
      if addr != 0 && wanted.eventType == CUDA_LAUNCH_KERNEL {
        kernels, addr := Cap(kernels, cfg.limits.maxKernels, wanted.pid, addr);
      }
      key := wanted.(stream := stream, addr := addr);
    }

    method Create(key: Key, r: Request)
      modifies this`handles, metrics`registry
      ensures Owned(handles) == Owned(old(handles))[key := SeriesFor(cfg, key, r)]
      ensures metrics.registry == old(metrics.registry) + SeriesFor(cfg, key, r)
    {
      var h := Build(cfg, key, r);
      metrics.RegisterHandle(key.eventType, h);
      handles := handles[key := h];
    }

    /** The global cap: a full cache counts the refusal and offers any handle of the process. */
    method Fallback(key: Key) returns (found: bool, other: Key)
      modifies metrics`cardinalityDrops
      ensures metrics.cardinalityDrops == old(metrics.cardinalityDrops) + if AtLimit(cfg, old(State())) then 1 else 0
      ensures found == (AtLimit(cfg, old(State())) && key.pid in Pids(Owned(handles)))
      ensures found ==> other in handles && other.pid == key.pid
    {
      SameKeys(handles);
      found, other := false, key;
      if |handles| >= cfg.limits.maxTimeSeries {
        metrics.cardinalityDrops := metrics.cardinalityDrops + 1;
        if k :| k in handles && k.pid == key.pid {
          found, other := true, k;
        }
      }
    }

    /** Returns the key of the handle served: the canonical one, or, when the cache is full, some other
        handle of the same process if it has one. */
    method GetOrCreate(r: Request) returns (served: Key)
      modifies this`handles, this`streams, this`kernels, metrics`registry, metrics`cardinalityDrops
      ensures State() == HandleCache.GetOrCreate(cfg, old(State()), r)
      ensures served in Owned(handles) && served.pid == r.key.pid
      ensures Canonical(cfg, old(State()), r.key) in Owned(handles) ==> served == Canonical(cfg, old(State()), r.key)
    {
      SameKeys(handles);
      var key := Canonicalise(r.key);
      served := key;
      if key !in handles {
        var found, other := Fallback(key);
        if found {
          served := other;
        } else {
          Create(key, r);
        }
      }
    }

    /** The event loop after a handle is served: gauge, then time stamp. */
    method Touch(pid: nat, now: nat)
      modifies this`lastSeen, metrics`trackedPids
      ensures lastSeen == old(lastSeen)[pid := now]
      ensures metrics.trackedPids == if pid in old(lastSeen) then old(metrics.trackedPids) else |old(lastSeen)| + 1
    {
      if pid !in lastSeen {
        metrics.trackedPids := |lastSeen| + 1;
      }
      lastSeen := lastSeen[pid := now];
    }

    method Observe(r: Request, now: nat)
      modifies this, metrics
      ensures State() == HandleCache.Observe(cfg, old(State()), r, now)
    {
      var served := GetOrCreate(r);
      Touch(r.key.pid, now);
    }

    method RemoveOne(key: Key)
      requires key in handles
      modifies this`handles, metrics`registry
      ensures handles == old(handles) - {key} && Owned(handles) == Owned(old(handles)) - {key}
      ensures metrics.registry == old(metrics.registry) - Owned(old(handles))[key]
    {
      metrics.RemoveHandle(key.eventType, handles[key]);
      handles := handles - {key};
    }

    /** Removes the handles of `keys` one by one, each with its series. */
    method RemoveAll(keys: set<Key>)
      requires keys <= handles.Keys
      modifies this`handles, metrics`registry
      ensures State() == Remove(old(State()), keys)
      ensures handles == old(handles) - keys
    {
      ghost var owned, registry := Owned(handles), metrics.registry;
      ghost var done: set<Key> := {};
      var todo := keys;
      assert owned - done == owned && registry - Gone(owned, done) == registry;
      while todo != {}
        invariant todo !! done && todo + done == keys
        invariant handles == old(handles) - done && Owned(handles) == owned - done
        invariant metrics.registry == registry - Gone(owned, done)
      {
        var key :| key in todo;
        RemoveOne(key);
        GoneAdds(owned, done, key);
        assert owned - done - {key} == owned - (done + {key});
        assert old(handles) - done - {key} == old(handles) - (done + {key});
        todo, done := todo - {key}, done + {key};
      }
      assert done == keys;
    }

    method InvalidatePids(pids: set<nat>)
      modifies this`handles, metrics`registry
      ensures State() == HandleCache.InvalidatePids(old(State()), pids)
    {
      var keys := set k | k in handles && k.pid in pids;
      assert keys == KeysOf(Owned(handles), pids);
      RemoveAll(keys);
    }

    method SweepPid(pid: nat)
      modifies this, metrics`registry
      ensures State() == Swept(old(State()), {pid})
    {
      InvalidatePids({pid});
      lastSeen, streams, kernels := lastSeen - {pid}, streams - {pid}, kernels - {pid};
    }

    /** Sweeps the idle processes one by one. */
    method Gc(now: nat, staleAfter: nat) returns (stale: set<nat>)
      modifies this, metrics`registry, metrics`trackedPids
      ensures State() == HandleCache.Gc(old(State()), now, staleAfter)
      ensures stale == Stale(old(State()), now, staleAfter)
    {
      ghost var before := State();
      stale := set pid | pid in lastSeen && now - lastSeen[pid] > staleAfter;
      assert stale == Stale(before, now, staleAfter);
      SweepSet(stale);
      if stale != {} {
        metrics.trackedPids := |lastSeen|;
      }
    }

    method SweepSet(pids: set<nat>)
      modifies this, metrics`registry
      ensures State() == Swept(old(State()), pids)
    {
      ghost var before, done := State(), {};
      var todo := pids;
      SweptNothing(before);
      while todo != {}
        invariant todo + done == pids
        invariant State() == Swept(before, done)
      {
        var pid :| pid in todo;
        SweepPid(pid);
        SweptMore(before, done, pid);
        todo, done := todo - {pid}, done + {pid};
      }
      assert done == pids;
    }
  }

  lemma SweptNothing(c: Cache)
    ensures Swept(c, {}) == c
  {
    assert KeysOf(c.handles, {}) == {};
    assert Gone(c.handles, {}) == {};
    assert c.handles - {} == c.handles;
    assert c.lastSeen - {} == c.lastSeen && c.streams - {} == c.streams && c.kernels - {} == c.kernels;
  }

  lemma SweptMore(c: Cache, done: set<nat>, pid: nat)
    ensures Swept(Swept(c, done), {pid}) == Swept(c, done + {pid})
  {
    var keys, more := KeysOf(c.handles, done), KeysOf(c.handles, {pid});
    assert KeysOf(c.handles, done + {pid}) == keys + more;
    assert KeysOf(c.handles - keys, {pid}) == more - keys;
    assert c.handles - keys - (more - keys) == c.handles - (keys + more);
    GoneTwice(c.handles, keys, more);
    assert c.lastSeen - done - {pid} == c.lastSeen - (done + {pid});
    assert c.streams - done - {pid} == c.streams - (done + {pid});
    assert c.kernels - done - {pid} == c.kernels - (done + {pid});
  }

  lemma GoneTwice(handles: map<Key, set<Series>>, keys: set<Key>, more: set<Key>)
    ensures Gone(handles, keys + more) == Gone(handles, keys) + Gone(handles - keys, more - keys)
  {
    forall s
      ensures s in Gone(handles, keys + more) <==> s in Gone(handles, keys) || s in Gone(handles - keys, more - keys)
    {
      if k :| k in handles && k in keys + more && s in handles[k] {
        assert k in keys || (k in handles - keys && k in more - keys && s in (handles - keys)[k]);
      }
    }
  }

  lemma GoneAdds(handles: map<Key, set<Series>>, done: set<Key>, key: Key)
    requires key in handles
    ensures Gone(handles, done + {key}) == Gone(handles, done) + handles[key]
  {
  }
}
