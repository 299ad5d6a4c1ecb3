/** The bounded cache of metric handles: per-process caps on streams and kernels, a global cap with
    a fallback, invalidation and garbage collection, and its agreement with the metrics registry.

    The functions say what each operation does to the cache and the registry; the class
    `MetricHandleCache` in module MetricCache is the step-by-step code. */
module HandleCache {
  import opened Collections
  import opened Events

  /** A label value. Numbers are rendered injectively (decimal for process ids and error codes,
      hexadecimal for streams and addresses). */
  datatype Label = Text(text: string) | Decimal(n: nat) | Hex(n: nat) | UnknownAt(addr: nat)

  datatype Family =
    | NcclCalls | NcclBytes | CudaCalls | MemcpyBytes | MallocBytes | KernelLaunches | CudaErrors
    | NcclDuration | CudaDuration | KernelDuration

  datatype Series = Series(family: Family, labels: seq<Label>)

  /** Duration histograms carry no `pid` label and are shared between processes. */
  predicate PidLabelled(f: Family) {
    f != NcclDuration && f != CudaDuration && f != KernelDuration
  }

  /** Event type, process, memcpy kind, error code, stream, kernel address, NVTX marker hash. */
  datatype Key = Key(eventType: nat, pid: nat, memcpyKind: nat, errorCode: nat, stream: nat, addr: nat, nvtx: nat)

  /** What `Enricher::lookup` returns for a process. */
  datatype Identity = Identity(comm: string, namespace: string, pod: string, container: string, gpu: string,
                               gpuUuid: string)

  datatype Limits = Limits(maxTimeSeries: nat, maxStreams: nat, maxKernels: nat)

  /** The limits, whether the kernel histogram is registered, and the name tables, whatever they say. */
  datatype Settings = Settings(limits: Limits, kernelHistogram: bool,
                               operation: nat -> string, direction: nat -> string, classify: Label -> string)

  /** A call of `get_or_create`: the key, and what the handle's labels are built from. */
  datatype Request = Request(key: Key, who: Identity, kernelName: Option<string>, phase: string)

  datatype Handle = Handle(calls: seq<Label>, hist: seq<Label>, memcpy: Option<seq<Label>>, malloc: Option<seq<Label>>,
                           ncclBytes: Option<seq<Label>>, kernelCounter: Option<seq<Label>>,
                           kernelHist: Option<seq<Label>>, errors: Option<seq<Label>>)

  /** The abstract state: for each cached key the series its handle stands for, the time stamps, the
      admitted streams and kernels, and the registry. */
  datatype Cache = Cache(
    handles: map<Key, set<Series>>,
    lastSeen: map<nat, nat>,
    streams: map<nat, set<nat>>,
    kernels: map<nat, set<nat>>,
    registry: set<Series>,
    cardinalityDrops: nat,
    trackedPids: nat)

  function Fresh(): Cache {
    Cache(map[], map[], map[], map[], {}, 0, 0)
  }

  // ----- building and removing the series of a handle

  function ProcessLabels(pid: nat, who: Identity): (r: seq<Label>)
    ensures |r| == 7 && r[0] == Decimal(pid)
  {
    [Decimal(pid), Text(who.comm), Text(who.namespace), Text(who.pod), Text(who.container),
     Text(who.gpu), Text(who.gpuUuid)]
  }

  function StreamLabel(stream: nat): Label {
    if stream == 0 then Text("default") else Hex(stream)
  }

  predicate CopiesBytes(eventType: nat) {
    eventType == CUDA_MEMCPY || eventType == CUDA_MEMCPY_ASYNC
    || eventType == CUDA_MEMSET || eventType == CUDA_MEMSET_ASYNC
  }

  function KernelLabel(key: Key, name: Option<string>): Label {
    if key.addr == 0 then Text("aggregated")
    else if name.Some? then Text(name.value)
    else UnknownAt(key.addr)
  }

  function Build(cfg: Settings, key: Key, r: Request): Handle {
    var op := Text(cfg.operation(key.eventType));
    var process := ProcessLabels(key.pid, r.who);
    var hist := [op, Text(r.who.namespace), Text(r.who.pod), Text(r.who.gpu)];
    var errors := if key.errorCode != 0 then Some([op] + process + [Decimal(key.errorCode)]) else None;
    if IsNccl(key.eventType) then
      Handle([op] + process, hist, None, None, Some([op] + process), None, None, errors)
    else
      var kernel := KernelLabel(key, r.kernelName);
      var kind := Text(cfg.classify(kernel));
      var launch := key.eventType == CUDA_LAUNCH_KERNEL;
      Handle(
        [op] + process + [StreamLabel(key.stream)],
        hist,
        if CopiesBytes(key.eventType)
        then Some([Text(cfg.direction(key.memcpyKind))] + process + [StreamLabel(key.stream)]) else None,
        if key.eventType == CUDA_MALLOC || key.eventType == CUDA_MALLOC_HOST then Some(process) else None,
        None,
        if launch then Some([kernel] + process + [kind, Text(r.phase)]) else None,
        if launch && cfg.kernelHistogram
        then Some([kernel, Text(r.who.namespace), Text(r.who.pod), Text(r.who.gpu), kind, Text(r.phase)]) else None,
        errors)
  }

  /** The label tuple a handle stores for a family. */
  function LabelsIn(eventType: nat, h: Handle, f: Family): Option<seq<Label>> {
    match f
    case NcclCalls => if IsNccl(eventType) then Some(h.calls) else None
    case NcclDuration => if IsNccl(eventType) then Some(h.hist) else None
    case CudaCalls => if IsNccl(eventType) then None else Some(h.calls)
    case CudaDuration => if IsNccl(eventType) then None else Some(h.hist)
    case MemcpyBytes => h.memcpy
    case MallocBytes => h.malloc
    case NcclBytes => h.ncclBytes
    case KernelLaunches => h.kernelCounter
    case KernelDuration => h.kernelHist
    case CudaErrors => h.errors
  }

  /** The series behind a handle: those creating it registers and removing it drops. */
  function SeriesOf(eventType: nat, h: Handle): set<Series> {
    set f: Family | LabelsIn(eventType, h, f).Some? :: Series(f, LabelsIn(eventType, h, f).value)
  }

  lemma InSeries(eventType: nat, h: Handle, x: Series)
    ensures x in SeriesOf(eventType, h) <==> LabelsIn(eventType, h, x.family) == Some(x.labels)
  {
    if LabelsIn(eventType, h, x.family) == Some(x.labels) {
      assert x == Series(x.family, LabelsIn(eventType, h, x.family).value);
    }
  }

  /** The process a series is about. */
  predicate AboutPid(x: Series, pid: nat) {
    if x.family == MallocBytes then |x.labels| > 0 && x.labels[0] == Decimal(pid)
    else |x.labels| > 1 && x.labels[1] == Decimal(pid)
  }

  /** Every pid-labelled series of a handle names the process of its key. */
  lemma BuildNamesPid(cfg: Settings, key: Key, r: Request)
    ensures NamesPid(key, SeriesFor(cfg, key, r))
  {
    var h := Build(cfg, key, r);
    var op := Text(cfg.operation(key.eventType));
    var process := ProcessLabels(key.pid, r.who);
    assert h.calls[1] == process[0];
    assert h.errors.Some? ==> h.errors.value[1] == process[0];
    assert h.memcpy.Some? ==> h.memcpy.value[1] == process[0];
    assert h.kernelCounter.Some? ==> h.kernelCounter.value[1] == process[0];
    assert h.ncclBytes.Some? ==> h.ncclBytes.value[1] == process[0];
  }

  function SeriesFor(cfg: Settings, key: Key, r: Request): set<Series> {
    SeriesOf(key.eventType, Build(cfg, key, r))
  }

  function Pids(handles: map<Key, set<Series>>): set<nat> {
    set k | k in handles :: k.pid
  }

  // ----- operations

  function Admitted(sets: map<nat, set<nat>>, pid: nat): set<nat> {
    if pid in sets then sets[pid] else {}
  }

  /** A value is admitted while there is room. */
  function Admit(admitted: set<nat>, cap: nat, x: nat): set<nat> {
    if x != 0 && x !in admitted && |admitted| < cap then admitted + {x} else admitted
  }

  /** The admitted values after a request for `x`, and what `x` becomes: itself, or 0 when the cap
      keeps it out. */
  function Collapse(sets: map<nat, set<nat>>, cap: nat, pid: nat, x: nat): (map<nat, set<nat>>, nat) {
    if x == 0 then (sets, 0)
    else
      var admitted := Admit(Admitted(sets, pid), cap, x);
      (sets[pid := admitted], if x in admitted then x else 0)
  }

  function WithStream(cfg: Settings, c: Cache, key: Key): (map<nat, set<nat>>, nat) {
    Collapse(c.streams, cfg.limits.maxStreams, key.pid, key.stream)
  }

  function WithKernel(cfg: Settings, c: Cache, key: Key): (map<nat, set<nat>>, nat) {
    if key.eventType == CUDA_LAUNCH_KERNEL then Collapse(c.kernels, cfg.limits.maxKernels, key.pid, key.addr)
    else (c.kernels, key.addr)
  }

  function Canonical(cfg: Settings, c: Cache, key: Key): Key {
    key.(stream := WithStream(cfg, c, key).1, addr := WithKernel(cfg, c, key).1)
  }

  predicate AtLimit(cfg: Settings, c: Cache) {
    |c.handles| >= cfg.limits.maxTimeSeries
  }

  /** A new handle is made unless it exists, or the cache is full and the process has some handle to
      fall back to. */
  predicate Creates(cfg: Settings, c: Cache, key: Key) {
    Canonical(cfg, c, key) !in c.handles && !(AtLimit(cfg, c) && key.pid in Pids(c.handles))
  }

  /** `get_or_create` where `series` are those of the handle that would be made. */
  function Ensure(cfg: Settings, c: Cache, wanted: Key, series: set<Series>): Cache {
    var key := Canonical(cfg, c, wanted);
    var collapsed := c.(streams := WithStream(cfg, c, wanted).0, kernels := WithKernel(cfg, c, wanted).0,
                        cardinalityDrops := c.cardinalityDrops + if key !in c.handles && AtLimit(cfg, c) then 1 else 0);
    if Creates(cfg, c, wanted)
    then collapsed.(handles := c.handles[key := series], registry := c.registry + series)
    else collapsed
  }

  function GetOrCreate(cfg: Settings, c: Cache, r: Request): Cache {
    Ensure(cfg, c, r.key, SeriesFor(cfg, Canonical(cfg, c, r.key), r))
  }

  /** One event-loop step: the handle, then the bookkeeping of the process it belongs to. */
  function Observe(cfg: Settings, c: Cache, r: Request, now: nat): Cache {
    var pid := r.key.pid;
    GetOrCreate(cfg, c, r).(lastSeen := c.lastSeen[pid := now],
                            trackedPids := if pid in c.lastSeen then c.trackedPids else |c.lastSeen| + 1)
  }

  function Gone(handles: map<Key, set<Series>>, keys: set<Key>): set<Series> {
    set k, x | k in keys && k in handles && x in handles[k] :: x
  }

  function KeysOf(handles: map<Key, set<Series>>, pids: set<nat>): set<Key> {
    set k | k in handles && k.pid in pids
  }

  function Remove(c: Cache, keys: set<Key>): Cache {
    c.(handles := c.handles - keys, registry := c.registry - Gone(c.handles, keys))
  }

  function InvalidatePids(c: Cache, pids: set<nat>): Cache {
    Remove(c, KeysOf(c.handles, pids))
  }

  predicate Idle(c: Cache, pid: nat, now: nat, staleAfter: nat) {
    pid in c.lastSeen && now - c.lastSeen[pid] > staleAfter
  }

  /** Processes idle for longer than `staleAfter`; a time stamp in the future is not idle. */
  function Stale(c: Cache, now: nat, staleAfter: nat): set<nat> {
    set pid | pid in c.lastSeen && now - c.lastSeen[pid] > staleAfter
  }

  /** The cache with everything of the processes `gone` removed. */
  function Swept(c: Cache, gone: set<nat>): Cache {
    InvalidatePids(c, gone).(lastSeen := c.lastSeen - gone, streams := c.streams - gone, kernels := c.kernels - gone)
  }

  function Gc(c: Cache, now: nat, staleAfter: nat): Cache {
    var stale := Stale(c, now, staleAfter);
    if stale == {} then Swept(c, stale) else Swept(c, stale).(trackedPids := |c.lastSeen - stale|)
  }

  // ----- runs

  datatype Op = Record(request: Request, at: nat) | Invalidate(pids: set<nat>) | Sweep(now: nat, staleAfter: nat)

  function Apply(cfg: Settings, c: Cache, op: Op): Cache {
    match op
    case Record(r, at) => Observe(cfg, c, r, at)
    case Invalidate(pids) => InvalidatePids(c, pids)
    case Sweep(now, staleAfter) => Gc(c, now, staleAfter)
  }

  function Run(cfg: Settings, ops: seq<Op>): Cache {
    if ops == [] then Fresh() else Apply(cfg, Run(cfg, ops[..|ops| - 1]), ops[|ops| - 1])
  }

  // ----- the registry agrees with the cache

  function Union(owned: map<Key, set<Series>>): set<Series> {
    set k, x | k in owned && x in owned[k] :: x
  }

  ghost predicate NamesPid(key: Key, series: set<Series>) {
    forall x :: x in series && PidLabelled(x.family) ==> AboutPid(x, key.pid)
  }

  ghost predicate NamesPids(owned: map<Key, set<Series>>) {
    forall k :: k in owned ==> NamesPid(k, owned[k])
  }

  /** Pid-labelled families hold exactly the stored label tuples; pid-less ones hold stored tuples only. */
  ghost predicate Matches(registry: set<Series>, stored: set<Series>) {
    && registry <= stored
    && forall x :: x in stored && PidLabelled(x.family) ==> x in registry
  }

  ghost predicate Agrees(c: Cache) {
    Matches(c.registry, Union(c.handles)) && NamesPids(c.handles)
  }

  lemma AddMatches(registry: set<Series>, owned: map<Key, set<Series>>, key: Key, series: set<Series>)
    requires Matches(registry, Union(owned)) && NamesPids(owned) && key !in owned && NamesPid(key, series)
    ensures Matches(registry + series, Union(owned[key := series])) && NamesPids(owned[key := series])
  {
    var owned' := owned[key := series];
    assert Union(owned') == Union(owned) + series by {
      forall x | x in Union(owned) ensures x in Union(owned') {
        var k :| k in owned && x in owned[k];
        assert owned'[k] == owned[k];
      }
      forall x | x in series ensures x in Union(owned') {
        assert x in owned'[key];
      }
    }
  }

  /** Removing all keys of some processes keeps the match, although removing one of them alone takes
      series its siblings still store. */
  lemma DropMatches(registry: set<Series>, owned: map<Key, set<Series>>, keys: set<Key>, gone: set<Series>)
    requires Matches(registry, Union(owned)) && NamesPids(owned) && keys <= owned.Keys
    requires forall k, k' :: k in keys && k' in owned && k.pid == k'.pid ==> k' in keys
    requires forall x :: x in gone <==> exists k :: k in keys && x in owned[k]
    ensures Matches(registry - gone, Union(owned - keys)) && NamesPids(owned - keys)
  {
    var kept := owned - keys;
    forall x | x in registry - gone ensures x in Union(kept) {
      var k :| k in owned && x in owned[k];
      assert k in kept && x in kept[k];
    }
    forall x | x in Union(kept) && PidLabelled(x.family) ensures x in registry - gone {
      var k :| k in kept && x in kept[k];
      assert x in owned[k] && x in Union(owned);
      if x in gone {
        var k' :| k' in keys && x in owned[k'];
        assert false;
      }
    }
  }

  lemma EnsureAgrees(cfg: Settings, c: Cache, wanted: Key, series: set<Series>)
    requires Agrees(c) && NamesPid(wanted, series)
    ensures Agrees(Ensure(cfg, c, wanted, series))
  {
    if Creates(cfg, c, wanted) {
      AddMatches(c.registry, c.handles, Canonical(cfg, c, wanted), series);
    }
  }

  lemma InvalidateAgrees(c: Cache, pids: set<nat>)
    requires Agrees(c)
    ensures Agrees(InvalidatePids(c, pids))
  {
    var keys := KeysOf(c.handles, pids);
    DropMatches(c.registry, c.handles, keys, Gone(c.handles, keys));
  }

  /** Removing a single handle keeps the agreement exactly when no other handle stores one of its
      pid-labelled series: this is why a process is always removed whole. */
  lemma RemoveOneAgreesIff(c: Cache, key: Key)
    requires Agrees(c) && key in c.handles
    ensures Agrees(Remove(c, {key})) <==>
            forall k, x :: k in c.handles && k != key && x in c.handles[k] && x in c.handles[key]
                           ==> !PidLabelled(x.family)
  {
    var c' := Remove(c, {key});
    assert forall x :: x in Gone(c.handles, {key}) <==> x in c.handles[key];
    if forall k, x :: k in c.handles && k != key && x in c.handles[k] && x in c.handles[key]
                      ==> !PidLabelled(x.family) {
      forall x | x in c'.registry ensures x in Union(c'.handles) {
        var k :| k in c.handles && x in c.handles[k];
        assert k in c'.handles && x in c'.handles[k];
      }
      forall x | x in Union(c'.handles) && PidLabelled(x.family) ensures x in c'.registry {
        var k :| k in c'.handles && x in c'.handles[k];
        assert x in c.handles[k] && x in Union(c.handles);
      }
    } else {
      var k, x :| k in c.handles && k != key && x in c.handles[k] && x in c.handles[key] && PidLabelled(x.family);
      assert x in c'.handles[k] && x in Union(c'.handles) && x !in c'.registry;
    }
  }

  lemma CreateAgrees(cfg: Settings, c: Cache, r: Request)
    requires Agrees(c)
    ensures Agrees(GetOrCreate(cfg, c, r))
  {
    var key := Canonical(cfg, c, r.key);
    BuildNamesPid(cfg, key, r);
    EnsureAgrees(cfg, c, r.key, SeriesFor(cfg, key, r));
  }

  lemma ApplyAgrees(cfg: Settings, c: Cache, op: Op)
    requires Agrees(c)
    ensures Agrees(Apply(cfg, c, op))
  {
    match op
    case Record(r, _) => CreateAgrees(cfg, c, r);
    case Invalidate(pids) => InvalidateAgrees(c, pids);
    case Sweep(now, staleAfter) => InvalidateAgrees(c, Stale(c, now, staleAfter));
  }

  /** After every sequence of operations the registry agrees with the cache. */
  lemma {:induction false} RegistryAgrees(cfg: Settings, ops: seq<Op>)
    ensures Agrees(Run(cfg, ops))
  {
    if ops != [] {
      RegistryAgrees(cfg, ops[..|ops| - 1]);
      ApplyAgrees(cfg, Run(cfg, ops[..|ops| - 1]), ops[|ops| - 1]);
    }
  }
}
