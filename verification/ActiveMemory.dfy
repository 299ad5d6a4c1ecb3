/** Conservation of device memory: bytes counted by the malloc and free probes against the sizes
    tracked in MALLOC_SIZES and the frees in flight, and the gauge that userspace derives. */
module ActiveMemory {
  import opened Sums
  import opened Events
  import opened PerCpuTable
  import opened Histograms
  import opened Probes
  import opened Pipeline

  function MallocOf(pid: nat): AggKey -> bool {
    (k: AggKey) => k.pid == pid && IsMalloc(k.eventType)
  }

  function FreeOf(pid: nat): AggKey -> bool {
    (k: AggKey) => k.pid == pid && IsFree(k.eventType)
  }

  function SizeOf(pid: nat, sizes: map<(nat, nat), nat>): ((nat, nat)) -> int {
    (k: (nat, nat)) => if k in sizes && k.0 == pid then sizes[k] else 0
  }

  function FreeingOf(pid: nat, inflight: map<ThreadId, Entry>): ThreadId -> int {
    (id: ThreadId) =>
      if id in inflight && id.pid == pid && IsFree(inflight[id].eventType) then inflight[id].arg0 else 0
  }

  /** Bytes of the process tracked in MALLOC_SIZES. */
  ghost function Live(m: Maps, pid: nat): int {
    SumSet(m.mallocSizes.Keys, SizeOf(pid, m.mallocSizes))
  }

  /** Bytes held by the process's frees that have not returned yet. */
  ghost function Freeing(m: Maps, pid: nat): int {
    SumSet(m.inflight.Keys, FreeingOf(pid, m.inflight))
  }

  function Allocated(s: System, pid: nat): int {
    Recorded(Size(MallocOf(pid)), AggTable(s))
  }

  function Released(s: System, pid: nat): int {
    Recorded(Size(FreeOf(pid)), AggTable(s))
  }

  /** Bytes that malloc and free counted and that are neither tracked nor being freed. */
  ghost function Imbalance(s: System, pid: nat): int {
    Allocated(s, pid) - Released(s, pid) - Live(s.maps, pid) - Freeing(s.maps, pid)
  }

  ghost predicate Balanced(s: System, pid: nat) {
    Imbalance(s, pid) == 0
  }

  function MallocSize(e: Entry): nat {
    if IsMalloc(e.eventType) then e.arg0 else 0
  }

  /** What MALLOC_SIZES gains when a malloc probe returns over the entry `e`: the size replaces the one
      tracked for the pointer, if a pointer was remembered and read. */
  function Gain(m: Maps, id: ThreadId, e: Entry, devPtr: nat): int {
    if id in m.mallocPtrs && devPtr != 0 then e.arg0 - FreedSize(m, id.pid, devPtr) else 0
  }

  /** By how much a step moves the imbalance, read off the state before it: a free inside another call
      forgets the size it untracks, a malloc is counted without being tracked when another probe closes
      it, when it had nowhere to write its pointer or left it null, and a malloc return that closes
      another call tracks bytes nobody counted. */
  function Drift(s: System, a: Event, pid: nat): int {
    match a
    case FreeEnter(id, _, ptr, _, _, _) =>
      if id.pid == pid && id in s.maps.inflight then FreedSize(s.maps, pid, ptr) else 0
    case Exit(id, _, _, _, _) =>
      if id.pid == pid && id in s.maps.inflight then MallocSize(s.maps.inflight[id]) else 0
    case MallocExit(id, _, _, _, _, devPtr) =>
      if id.pid == pid && id in s.maps.inflight
      then MallocSize(s.maps.inflight[id]) - Gain(s.maps, id, s.maps.inflight[id], devPtr) else 0
    case _ => 0
  }

  // ----- what closing an entry adds to the log

  lemma CloseBytes(cfg: Config, s: System, a: Event, pid: nat)
    requires Ready(cfg, s, a) && (a.Exit? || a.MallocExit?) && cfg.rate <= 1 && a.id in s.maps.inflight
    ensures var s', e := Close(cfg, s, a.id, a.cpu, a.rc, a.now, a.room), s.maps.inflight[a.id];
            && Allocated(s', pid) == Allocated(s, pid) +
                 (if a.id.pid == pid && IsMalloc(e.eventType) then e.arg0 else 0)
            && Released(s', pid) == Released(s, pid) + (if a.id.pid == pid && IsFree(e.eventType) then e.arg0 else 0)
  {
    var e := s.maps.inflight[a.id];
    var hit := (AggKeyOf(a.id, e, a.rc), AggHit(cfg, e, Elapsed(e, a.now)));
    SumOverAppend(s.agg.log, hit, HitWeight(Size(MallocOf(pid))));
    SumOverAppend(s.agg.log, hit, HitWeight(Size(FreeOf(pid))));
  }

  lemma CloseFreeing(inflight: map<ThreadId, Entry>, id: ThreadId, pid: nat)
    requires id in inflight
    ensures SumSet((inflight - {id}).Keys, FreeingOf(pid, inflight - {id})) ==
            SumSet(inflight.Keys, FreeingOf(pid, inflight)) - FreeingOf(pid, inflight)(id)
  {
    assert (inflight - {id}).Keys == inflight.Keys - {id};
    SumSetDrop(inflight.Keys, id, FreeingOf(pid, inflight), FreeingOf(pid, inflight - {id}));
  }

  lemma OpenFreeing(inflight: map<ThreadId, Entry>, id: ThreadId, e: Entry, pid: nat)
    requires id !in inflight
    ensures SumSet(inflight[id := e].Keys, FreeingOf(pid, inflight[id := e])) ==
            SumSet(inflight.Keys, FreeingOf(pid, inflight))
            + (if id.pid == pid && IsFree(e.eventType) then e.arg0 else 0)
  {
    assert inflight[id := e].Keys == inflight.Keys + {id};
    SumSetChange(inflight.Keys, id, FreeingOf(pid, inflight), FreeingOf(pid, inflight[id := e]));
  }

  lemma TrackLive(sizes: map<(nat, nat), nat>, key: (nat, nat), size: nat, pid: nat)
    ensures SumSet(sizes[key := size].Keys, SizeOf(pid, sizes[key := size])) ==
            SumSet(sizes.Keys, SizeOf(pid, sizes))
            + (if key.0 == pid then size - (if key in sizes then sizes[key] else 0) else 0)
  {
    assert sizes[key := size].Keys == sizes.Keys + {key};
    SumSetChange(sizes.Keys, key, SizeOf(pid, sizes), SizeOf(pid, sizes[key := size]));
  }

  lemma UntrackLive(sizes: map<(nat, nat), nat>, key: (nat, nat), pid: nat)
    ensures SumSet((sizes - {key}).Keys, SizeOf(pid, sizes - {key})) ==
            SumSet(sizes.Keys, SizeOf(pid, sizes)) - (if key in sizes && key.0 == pid then sizes[key] else 0)
  {
    if key in sizes {
      assert (sizes - {key}).Keys == sizes.Keys - {key};
      SumSetDrop(sizes.Keys, key, SizeOf(pid, sizes), SizeOf(pid, sizes - {key}));
    } else {
      assert sizes - {key} == sizes;
    }
  }

  // ----- steps

  lemma CloseMoves(cfg: Config, s: System, a: Event, pid: nat)
    requires Ready(cfg, s, a) && (a.Exit? || a.MallocExit?) && cfg.rate <= 1 && a.id in s.maps.inflight
    ensures Imbalance(Close(cfg, s, a.id, a.cpu, a.rc, a.now, a.room), pid) ==
            Imbalance(s, pid) + if a.id.pid == pid then MallocSize(s.maps.inflight[a.id]) else 0
  {
    CloseBytes(cfg, s, a, pid);
    CloseFreeing(s.maps.inflight, a.id, pid);
  }

  lemma TrackMoves(cfg: Config, s: System, id: ThreadId, devPtr: nat, pid: nat)
    requires Good(cfg, s.maps)
    ensures Imbalance(s.(maps := TrackMalloc(cfg, s.maps, id, devPtr)), pid) ==
            Imbalance(s, pid)
            - if id.pid == pid && id in s.maps.inflight then Gain(s.maps, id, s.maps.inflight[id], devPtr) else 0
  {
    if id in s.maps.inflight {
      TrackLive(s.maps.mallocSizes, (id.pid, devPtr), s.maps.inflight[id].arg0, pid);
    }
  }

  lemma ExitDrift(cfg: Config, s: System, a: Event, pid: nat)
    requires Ready(cfg, s, a) && cfg.rate <= 1 && a.Exit?
    ensures Imbalance(Next(cfg, s, a), pid) == Imbalance(s, pid) + Drift(s, a, pid)
  {
    if a.id in s.maps.inflight {
      CloseMoves(cfg, s, a, pid);
    }
  }

  lemma MallocExitDrift(cfg: Config, s: System, a: Event, pid: nat)
    requires Ready(cfg, s, a) && cfg.rate <= 1 && a.MallocExit?
    ensures Imbalance(Next(cfg, s, a), pid) == Imbalance(s, pid) + Drift(s, a, pid)
  {
    var tracked := s.(maps := TrackMalloc(cfg, s.maps, a.id, a.devPtr));
    TrackMoves(cfg, s, a.id, a.devPtr, pid);
    if a.id in s.maps.inflight {
      CloseMoves(cfg, tracked, a, pid);
    }
  }

  lemma EnterDrift(cfg: Config, s: System, a: Event, pid: nat)
    requires Ready(cfg, s, a) && cfg.rate <= 1 && (a.Enter? || a.MallocEnter?)
    ensures Imbalance(Next(cfg, s, a), pid) == Imbalance(s, pid)
  {
    if a.id !in s.maps.inflight {
      OpenFreeing(s.maps.inflight, a.id, a.entry, pid);
    }
  }

  lemma FreeEnterDrift(cfg: Config, s: System, a: Event, pid: nat)
    requires Ready(cfg, s, a) && cfg.rate <= 1 && a.FreeEnter?
    ensures Imbalance(Next(cfg, s, a), pid) == Imbalance(s, pid) + Drift(s, a, pid)
  {
    var e := Entry(a.now, FreedSize(s.maps, a.id.pid, a.ptr), 0, a.stream, a.eventType);
    var s' := Next(cfg, s, a);
    assert s'.agg == s.agg;
    if a.id !in s.maps.inflight {
      OpenFreeing(s.maps.inflight, a.id, e, pid);
      assert s'.maps.inflight == s.maps.inflight[a.id := e];
    }
    if a.ptr != 0 {
      UntrackLive(s.maps.mallocSizes, (a.id.pid, a.ptr), pid);
      assert s'.maps.mallocSizes == s.maps.mallocSizes - {(a.id.pid, a.ptr)};
    }
  }

  /** Every step, nested or not, moves the imbalance of every process by its drift. */
  lemma NextDrift(cfg: Config, s: System, a: Event, pid: nat)
    requires Ready(cfg, s, a) && cfg.rate <= 1
    ensures Imbalance(Next(cfg, s, a), pid) == Imbalance(s, pid) + Drift(s, a, pid)
  {
    match a
    case Enter(_, _, _) => EnterDrift(cfg, s, a, pid);
    case MallocEnter(_, _, _, _) => EnterDrift(cfg, s, a, pid);
    case FreeEnter(_, _, _, _, _, _) => FreeEnterDrift(cfg, s, a, pid);
    case Exit(_, _, _, _, _) => ExitDrift(cfg, s, a, pid);
    case MallocExit(_, _, _, _, _, _) => MallocExitDrift(cfg, s, a, pid);
    case _ =>
  }

  /** Exactly when a free entry keeps the balance: it is not nested, or frees nothing tracked. */
  lemma FreeEnterBalancedIff(cfg: Config, s: System, a: Event)
    requires Ready(cfg, s, a) && cfg.rate <= 1 && a.FreeEnter? && Balanced(s, a.id.pid)
    ensures Balanced(Next(cfg, s, a), a.id.pid) <==>
            a.id !in s.maps.inflight || FreedSize(s.maps, a.id.pid, a.ptr) == 0
  {
    FreeEnterDrift(cfg, s, a, a.id.pid);
  }

  /** Exactly when the return of a malloc probe keeps the balance. Over a malloc entry: a pointer was
      remembered and read and had no size tracked, or nothing was asked for and no size is lost. Over
      another call's entry: nothing is tracked, or what replaces the tracked size is the same. */
  lemma MallocExitBalancedIff(cfg: Config, s: System, a: Event)
    requires Ready(cfg, s, a) && cfg.rate <= 1 && a.MallocExit? && Balanced(s, a.id.pid)
    ensures Balanced(Next(cfg, s, a), a.id.pid) <==>
            a.id !in s.maps.inflight ||
            var tracks, size := a.id in s.maps.mallocPtrs && a.devPtr != 0, s.maps.inflight[a.id].arg0;
            if IsMalloc(s.maps.inflight[a.id].eventType)
            then if tracks then FreedSize(s.maps, a.id.pid, a.devPtr) == 0 else size == 0
            else tracks ==> FreedSize(s.maps, a.id.pid, a.devPtr) == size
  {
    MallocExitDrift(cfg, s, a, a.id.pid);
  }

  // ----- runs

  /** The drift of the first `k` steps. */
  ghost function TotalDrift(cfg: Config, states: seq<System>, events: seq<Event>, k: nat, pid: nat): int
    requires IsRun(cfg, states, events) && k <= |events|
  {
    if k == 0 then 0
    else TotalDrift(cfg, states, events, k - 1, pid) + Drift(states[k - 1], events[k - 1], pid)
  }

  /** In every state of every run the imbalance is the drift so far. */
  lemma {:induction false} RunDrift(cfg: Config, states: seq<System>, events: seq<Event>, k: nat, pid: nat)
    requires IsRun(cfg, states, events) && cfg.rate <= 1 && k <= |events|
    ensures Imbalance(states[k], pid) == TotalDrift(cfg, states, events, k, pid)
  {
    if k > 0 {
      RunDrift(cfg, states, events, k - 1, pid);
      NextDrift(cfg, states[k - 1], events[k - 1], pid);
    }
  }

  /** Balanced in the states up to `k`. */
  ghost predicate BalancedThrough(states: seq<System>, k: nat, pid: nat)
    requires k < |states|
  {
    Balanced(states[k], pid) && (k > 0 ==> BalancedThrough(states, k - 1, pid))
  }

  /** None of the first `k` steps drifts. */
  ghost predicate Driftless(states: seq<System>, events: seq<Event>, k: nat, pid: nat)
    requires k <= |events| && k < |states|
  {
    k > 0 ==> Drift(states[k - 1], events[k - 1], pid) == 0 && Driftless(states, events, k - 1, pid)
  }

  lemma StepBalancedIff(cfg: Config, s: System, a: Event, pid: nat)
    requires Ready(cfg, s, a) && cfg.rate <= 1 && Balanced(s, pid)
    ensures Balanced(Next(cfg, s, a), pid) <==> Drift(s, a, pid) == 0
  {
    NextDrift(cfg, s, a, pid);
  }

  lemma StartBalanced(cfg: Config, pid: nat)
    ensures Balanced(Start(cfg), pid)
  {
  }

  /** A run is balanced throughout exactly when no step drifts. */
  lemma {:induction false} RunBalancedIff(cfg: Config, states: seq<System>, events: seq<Event>, k: nat, pid: nat)
    requires IsRun(cfg, states, events) && cfg.rate <= 1 && k <= |events|
    ensures BalancedThrough(states, k, pid) <==> Driftless(states, events, k, pid)
  {
    if k == 0 {
      StartBalanced(cfg, pid);
    } else {
      RunBalancedIff(cfg, states, events, k - 1, pid);
      if BalancedThrough(states, k - 1, pid) {
        StepBalancedIff(cfg, states[k - 1], events[k - 1], pid);
      }
    }
  }

  // ----- orderly runs do not drift

  /** A malloc in flight has its result pointer remembered. */
  ghost predicate PointersKept(s: System) {
    forall id :: id in s.maps.inflight && IsMalloc(s.maps.inflight[id].eventType) ==> id in s.maps.mallocPtrs
  }

  /** Un-nested calls; a malloc is given somewhere to write its pointer, and returns, through its own
      return probe, a pointer that is non-null and not tracked already. */
  ghost predicate Orderly(s: System, a: Event) {
    match a
    case Enter(id, _, _) => id !in s.maps.inflight
    case MallocEnter(id, _, ptr, _) => id !in s.maps.inflight && ptr != 0
    case FreeEnter(id, _, _, _, _, _) => id !in s.maps.inflight
    case Exit(id, _, _, _, _) => id in s.maps.inflight ==> !IsMalloc(s.maps.inflight[id].eventType)
    case MallocExit(id, _, _, _, _, devPtr) =>
      && id in s.maps.inflight && IsMalloc(s.maps.inflight[id].eventType)
      && devPtr != 0 && (id.pid, devPtr) !in s.maps.mallocSizes
    case _ => true
  }

  lemma OrderlyDrift(s: System, a: Event, pid: nat)
    requires Orderly(s, a) && PointersKept(s)
    ensures Drift(s, a, pid) == 0
  {
  }

  lemma ClosePointers(cfg: Config, s: System, a: Event)
    requires Ready(cfg, s, a) && (a.Exit? || a.MallocExit?)
    requires forall id :: id in s.maps.inflight && id != a.id && IsMalloc(s.maps.inflight[id].eventType) ==>
               id in s.maps.mallocPtrs
    ensures PointersKept(Close(cfg, s, a.id, a.cpu, a.rc, a.now, a.room))
  {
  }

  lemma SavePointers(cfg: Config, m: Maps, id: ThreadId, cpu: nat, e: Entry)
    requires Good(cfg, m) && cpu < cfg.cpus
    requires forall i :: i in m.inflight && IsMalloc(m.inflight[i].eventType) ==> i in m.mallocPtrs
    requires IsMalloc(e.eventType) ==> id in m.mallocPtrs
    ensures var r := SaveEntry(cfg, m, id, cpu, e);
            forall i :: i in r.inflight && IsMalloc(r.inflight[i].eventType) ==> i in r.mallocPtrs
  {
  }

  lemma EnterPointers(cfg: Config, s: System, a: Event)
    requires Ready(cfg, s, a) && Orderly(s, a) && PointersKept(s) && (a.Enter? || a.MallocEnter? || a.FreeEnter?)
    ensures PointersKept(Next(cfg, s, a))
  {
    match a
    case Enter(id, cpu, e) => SavePointers(cfg, s.maps, id, cpu, e);
    case MallocEnter(id, cpu, ptr, e) =>
      SavePointers(cfg, s.maps.(mallocPtrs := s.maps.mallocPtrs[id := ptr]), id, cpu, e);
    case FreeEnter(id, cpu, ptr, now, stream, t) =>
      var untracked := if ptr != 0 then s.maps.(mallocSizes := s.maps.mallocSizes - {(id.pid, ptr)}) else s.maps;
      SavePointers(cfg, untracked, id, cpu, Entry(now, FreedSize(s.maps, id.pid, ptr), 0, stream, t));
  }

  lemma NextPointers(cfg: Config, s: System, a: Event)
    requires Ready(cfg, s, a) && Orderly(s, a) && PointersKept(s)
    ensures PointersKept(Next(cfg, s, a))
  {
    match a
    case Exit(_, _, _, _, _) => ClosePointers(cfg, s, a);
    case MallocExit(id, _, _, _, _, devPtr) =>
      ClosePointers(cfg, s.(maps := TrackMalloc(cfg, s.maps, id, devPtr)), a);
    case Enter(_, _, _) => EnterPointers(cfg, s, a);
    case MallocEnter(_, _, _, _) => EnterPointers(cfg, s, a);
    case FreeEnter(_, _, _, _, _, _) => EnterPointers(cfg, s, a);
    case _ =>
  }

  ghost predicate OrderlyRun(cfg: Config, states: seq<System>, events: seq<Event>)
    requires IsRun(cfg, states, events)
  {
    forall j :: 0 <= j < |events| ==> Orderly(states[j], events[j])
  }

  lemma {:induction false} RunOrderly(cfg: Config, states: seq<System>, events: seq<Event>, k: nat, pid: nat)
    requires IsRun(cfg, states, events) && OrderlyRun(cfg, states, events) && k <= |events|
    ensures TotalDrift(cfg, states, events, k, pid) == 0 && PointersKept(states[k])
  {
    if k > 0 {
      RunOrderly(cfg, states, events, k - 1, pid);
      OrderlyDrift(states[k - 1], events[k - 1], pid);
      NextPointers(cfg, states[k - 1], events[k - 1]);
    }
  }

  /** Un-nested calls and successful mallocs keep the balance in every state. */
  lemma RunBalanced(cfg: Config, states: seq<System>, events: seq<Event>, k: nat, pid: nat)
    requires IsRun(cfg, states, events) && cfg.rate <= 1 && OrderlyRun(cfg, states, events) && k <= |events|
    ensures Balanced(states[k], pid)
  {
    RunOrderly(cfg, states, events, k, pid);
    RunDrift(cfg, states, events, k, pid);
  }

  lemma {:induction false} RunSizesConserved(cfg: Config, states: seq<System>, events: seq<Event>, k: nat,
                                             select: AggKey -> bool)
    requires IsRun(cfg, states, events) && k <= |events|
    ensures Conserved(Size(select), U64, AggTable(states[k]))
  {
    if k == 0 {
      EmptyConserved(Size(select), U64);
    } else {
      RunSizesConserved(cfg, states, events, k - 1, select);
      var s, a := states[k - 1], events[k - 1];
      NextAgg(cfg, s, a);
      var acts := AggActions(cfg, s, a);
      if acts != [] {
        AdditiveSums(AggShape(cfg), AggTable(s), acts[0], select);
        StepConserves(Size(select), U64, AggShape(cfg), AggTable(s), acts[0]);
      }
    }
  }

  /** Bytes counted under a selection of keys, wherever they are now. */
  ghost function BytesUnder(s: System, select: AggKey -> bool): int {
    var m, t := Size(select), AggTable(s);
    Published(m, t) + Resident(m, t) + Raced(m, t) + Rejected(m, t)
  }

  /** After every step of every run, malloc bytes minus free bytes, as the wrapping 64-bit sums count
      them, are the tracked bytes plus those of the frees in flight plus the drift. */
  lemma MemoryDrifts(cfg: Config, states: seq<System>, events: seq<Event>, k: nat, pid: nat)
    requires IsRun(cfg, states, events) && cfg.rate <= 1 && k <= |events|
    ensures var s := states[k];
            Divides(U64, BytesUnder(s, MallocOf(pid)) - BytesUnder(s, FreeOf(pid))
                         - Live(s.maps, pid) - Freeing(s.maps, pid) - TotalDrift(cfg, states, events, k, pid))
  {
    RunDrift(cfg, states, events, k, pid);
    RunSizesConserved(cfg, states, events, k, MallocOf(pid));
    RunSizesConserved(cfg, states, events, k, FreeOf(pid));
    var s := states[k];
    DividesSum(U64, BytesUnder(s, MallocOf(pid)) - Allocated(s, pid), BytesUnder(s, FreeOf(pid)) - Released(s, pid));
  }

  /** Main theorem: in orderly runs nothing drifts. */
  lemma MemoryConserved(cfg: Config, states: seq<System>, events: seq<Event>, k: nat, pid: nat)
    requires IsRun(cfg, states, events) && cfg.rate <= 1 && OrderlyRun(cfg, states, events) && k <= |events|
    ensures var s := states[k];
            Divides(U64, BytesUnder(s, MallocOf(pid)) - BytesUnder(s, FreeOf(pid))
                         - Live(s.maps, pid) - Freeing(s.maps, pid))
  {
    RunOrderly(cfg, states, events, k, pid);
    MemoryDrifts(cfg, states, events, k, pid);
  }

  /** A malloc that fails and leaves its pointer null: what it asked for stays counted. */
  lemma FailedMallocDrifts(cfg: Config, s: System, id: ThreadId, entry: Entry, enter: Event, leave: Event)
    requires Healthy(cfg, s) && cfg.cpus > 0 && cfg.rate <= 1 && id !in s.maps.inflight
    requires IsMalloc(entry.eventType) && enter == MallocEnter(id, 0, 1, entry)
    requires leave == MallocExit(id, 0, 2, 0, true, 0)
    ensures Ready(cfg, s, enter) && Ready(cfg, Next(cfg, s, enter), leave)
    ensures Imbalance(Next(cfg, Next(cfg, s, enter), leave), id.pid) == Imbalance(s, id.pid) + entry.arg0
  {
    NextHealthy(cfg, s, enter);
    EnterDrift(cfg, s, enter, id.pid);
    var waiting := Next(cfg, s, enter);
    assert waiting.maps.inflight == s.maps.inflight[id := entry];
    MallocExitDrift(cfg, waiting, leave, id.pid);
  }

  /** So two steps after the start the balance can be off by any amount. */
  lemma UnbalancedRun(cfg: Config, size: nat) returns (states: seq<System>, events: seq<Event>)
    requires cfg.cpus > 0 && cfg.rate <= 1
    ensures IsRun(cfg, states, events) && |events| == 2 && Imbalance(states[2], 7) == size
  {
    var id, entry := ThreadId(7, 7), Entry(0, size, 0, 0, CUDA_MALLOC);
    var enter, leave := MallocEnter(id, 0, 1, entry), MallocExit(id, 0, 2, 0, true, 0);
    StartRun(cfg);
    StartBalanced(cfg, 7);
    FailedMallocDrifts(cfg, Start(cfg), id, entry, enter, leave);
    Extend(cfg, [Start(cfg)], [], enter);
    states, events := [Start(cfg)] + [Next(cfg, Start(cfg), enter)], [] + [enter];
    Extend(cfg, states, events, leave);
    states, events := states + [Next(cfg, Next(cfg, Start(cfg), enter), leave)], events + [leave];
  }

  /** A tracked pointer freed inside another call: its size is forgotten. */
  lemma NestedFreeDrifts(cfg: Config, s: System, id: ThreadId, ptr: nat, e: Entry, free: Event)
    requires Healthy(cfg, s) && cfg.cpus > 0 && cfg.rate <= 1 && id !in s.maps.inflight
    requires !IsMalloc(e.eventType) && !IsFree(e.eventType)
    requires free == FreeEnter(id, 0, ptr, 0, 0, CUDA_FREE)
    ensures Ready(cfg, s, Enter(id, 0, e)) && Ready(cfg, Next(cfg, s, Enter(id, 0, e)), free)
    ensures Imbalance(Next(cfg, Next(cfg, s, Enter(id, 0, e)), free), id.pid) ==
            Imbalance(s, id.pid) + FreedSize(s.maps, id.pid, ptr)
  {
    var outer := Enter(id, 0, e);
    NextHealthy(cfg, s, outer);
    EnterDrift(cfg, s, outer, id.pid);
    FreeEnterDrift(cfg, Next(cfg, s, outer), free, id.pid);
  }
}
