/** Probes on many threads and CPUs interleaved with drain steps: one step system over the shared
    maps, with the history the whole-run theorems speak about. */
module Pipeline {
  import opened Events
  import opened PerCpuTable
  import opened Probes

  /** A completed call as `emit_exit` saw it: the type and start it saved, the return that closed it. */
  datatype Emitted = Emitted(id: ThreadId, eventType: nat, start: nat, end: nat)

  /** `passed[c]`: aggregatable entries on CPU `c` that got past the recursion guard. */
  datatype System = System(
    maps: Maps,
    agg: History<AggKey>,
    nccl: History<AggKey>,
    launch: History<LaunchKey>,
    records: seq<Emitted>,
    passed: seq<nat>)

  datatype Event =
    | Enter(id: ThreadId, cpu: nat, entry: Entry)
    | MallocEnter(id: ThreadId, cpu: nat, ptrToPtr: nat, entry: Entry)
    | FreeEnter(id: ThreadId, cpu: nat, ptr: nat, now: nat, stream: nat, eventType: nat)
    | Exit(id: ThreadId, cpu: nat, rc: nat, now: nat, room: bool)
    | MallocExit(id: ThreadId, cpu: nat, rc: nat, now: nat, room: bool, devPtr: nat)
    | DrainAgg(aggStep: Action<AggKey>)
    | DrainNccl(ncclStep: Action<AggKey>)
    | DrainLaunch(launchStep: Action<LaunchKey>)
    | Promote(pids: set<nat>)

  function AggTable(s: System): Table<AggKey> { Table(s.maps.aggregated, s.agg) }
  function NcclTable(s: System): Table<AggKey> { Table(s.maps.nccl, s.nccl) }
  function LaunchTable(s: System): Table<LaunchKey> { Table(s.maps.launches, s.launch) }

  function Start(cfg: Config): System {
    System(Initial(cfg), Empty<AggKey>().past, Empty<AggKey>().past, Empty<LaunchKey>().past, [],
           seq(cfg.cpus, _ => 0))
  }

  ghost predicate PendingOk<K(!new)>(t: Table<K>) {
    t.past.pending == [] || (|t.past.pending| == 1 && t.past.pending[0].0 in t.rows)
  }

  ghost predicate Healthy(cfg: Config, s: System) {
    && Good(cfg, s.maps) && |s.passed| == cfg.cpus
    && PendingOk(AggTable(s)) && PendingOk(NcclTable(s)) && PendingOk(LaunchTable(s))
  }

  /** Plain probes are those that only call `save_entry`; LAUNCH_AGG is drained only when launches
      are not sent one by one. */
  ghost predicate Ready(cfg: Config, s: System, a: Event) {
    && Healthy(cfg, s)
    && match a
       case Enter(_, cpu, e) => cpu < cfg.cpus && !IsMalloc(e.eventType) && !IsFree(e.eventType)
       case MallocEnter(_, cpu, _, e) => cpu < cfg.cpus && IsMalloc(e.eventType)
       case FreeEnter(_, cpu, _, _, _, t) => cpu < cfg.cpus && IsFree(t)
       case Exit(_, cpu, _, _, _) => cpu < cfg.cpus
       case MallocExit(_, cpu, _, _, _, _) => cpu < cfg.cpus
       case DrainAgg(d) => !d.Record? && Enabled(AggShape(cfg), AggTable(s), d)
       case DrainNccl(d) => !d.Record? && Enabled(NcclShape(cfg), NcclTable(s), d)
       case DrainLaunch(d) => !cfg.detailed && !d.Record? && Enabled(LaunchShape(cfg), LaunchTable(s), d)
       case Promote(_) => true
  }

  /** Notes an entry that got past the guard. */
  function Passing(s: System, id: ThreadId, cpu: nat, eventType: nat): seq<nat>
    requires cpu < |s.passed|
  {
    if id !in s.maps.inflight && IsAggregatable(eventType) then s.passed[cpu := s.passed[cpu] + 1] else s.passed
  }

  /** `emit_exit` with its history: an entry in flight is closed into its sink. */
  ghost function Close(cfg: Config, s: System, id: ThreadId, cpu: nat, rc: nat, now: nat, room: bool): System
    requires Good(cfg, s.maps) && cpu < cfg.cpus
  {
    if id !in s.maps.inflight then s
    else
      var e := s.maps.inflight[id];
      var d := Elapsed(e, now);
      var sink := SinkOf(s.maps, id);
      s.(maps := EmitExit(cfg, s.maps, id, cpu, rc, now, room),
         records := s.records + [Emitted(id, e.eventType, e.timestamp, now)],
         agg := if sink != ToAggregated then s.agg
                else Note(AggShape(cfg), AggTable(s), AggKeyOf(id, e, rc), AggHit(cfg, e, d)),
         nccl := if sink != ToNccl then s.nccl
                 else Note(NcclShape(cfg), NcclTable(s), NcclKeyOf(id, e, rc), NcclHit(e, d)),
         launch := if sink != ToLaunches then s.launch
                   else Note(LaunchShape(cfg), LaunchTable(s), LaunchKeyOf(cfg, s.maps, id, e), LaunchHit(d)))
  }

  ghost function Next(cfg: Config, s: System, a: Event): System
    requires Ready(cfg, s, a)
  {
    match a
    case Enter(id, cpu, e) =>
      s.(maps := SaveEntry(cfg, s.maps, id, cpu, e), passed := Passing(s, id, cpu, e.eventType))
    case MallocEnter(id, cpu, ptr, e) =>
      s.(maps := MallocEntry(cfg, s.maps, id, cpu, ptr, e), passed := Passing(s, id, cpu, e.eventType))
    case FreeEnter(id, cpu, ptr, now, stream, t) =>
      s.(maps := FreeEntry(cfg, s.maps, id, cpu, ptr, now, stream, t), passed := Passing(s, id, cpu, t))
    case Exit(id, cpu, rc, now, room) => Close(cfg, s, id, cpu, rc, now, room)
    case MallocExit(id, cpu, rc, now, room, devPtr) =>
      Close(cfg, s.(maps := TrackMalloc(cfg, s.maps, id, devPtr)), id, cpu, rc, now, room)
    case DrainAgg(d) =>
      var t := Step(AggShape(cfg), AggTable(s), d);
      s.(maps := s.maps.(aggregated := t.rows), agg := t.past)
    case DrainNccl(d) =>
      var t := Step(NcclShape(cfg), NcclTable(s), d);
      s.(maps := s.maps.(nccl := t.rows), nccl := t.past)
    case DrainLaunch(d) =>
      var t := Step(LaunchShape(cfg), LaunchTable(s), d);
      s.(maps := s.maps.(launches := t.rows), launch := t.past)
    case Promote(pids) => s.(maps := s.maps.(upgraded := pids))
  }

  /** A run: any finite interleaving of steps from the initial state. */
  ghost predicate IsRun(cfg: Config, states: seq<System>, events: seq<Event>) {
    && |states| == |events| + 1
    && states[0] == Start(cfg)
    && forall k :: 0 <= k < |events| ==>
         Ready(cfg, states[k], events[k]) && states[k + 1] == Next(cfg, states[k], events[k])
  }

  lemma StartRun(cfg: Config)
    ensures IsRun(cfg, [Start(cfg)], []) && Healthy(cfg, Start(cfg))
  {
  }

  lemma Extend(cfg: Config, states: seq<System>, events: seq<Event>, a: Event)
    requires IsRun(cfg, states, events) && Ready(cfg, states[|events|], a)
    ensures IsRun(cfg, states + [Next(cfg, states[|events|], a)], events + [a])
  {
  }

  // ----- what a step does to each table

  /** The step closes an entry into the given sink. */
  predicate Closes(s: System, a: Event, sink: Sink) {
    (a.Exit? || a.MallocExit?) && a.id in s.maps.inflight && SinkOf(s.maps, a.id) == sink
  }

  ghost function AggActions(cfg: Config, s: System, a: Event): seq<Action<AggKey>>
    requires Ready(cfg, s, a)
  {
    if a.DrainAgg? then [a.aggStep]
    else if Closes(s, a, ToAggregated) then
      var e := s.maps.inflight[a.id];
      [Record(AggKeyOf(a.id, e, a.rc), a.cpu, AggHit(cfg, e, Elapsed(e, a.now)))]
    else []
  }

  ghost function NcclActions(cfg: Config, s: System, a: Event): seq<Action<AggKey>>
    requires Ready(cfg, s, a)
  {
    if a.DrainNccl? then [a.ncclStep]
    else if Closes(s, a, ToNccl) then
      var e := s.maps.inflight[a.id];
      [Record(NcclKeyOf(a.id, e, a.rc), a.cpu, NcclHit(e, Elapsed(e, a.now)))]
    else []
  }

  ghost function LaunchActions(cfg: Config, s: System, a: Event): seq<Action<LaunchKey>>
    requires Ready(cfg, s, a)
  {
    if a.DrainLaunch? then [a.launchStep]
    else if Closes(s, a, ToLaunches) then
      var e := s.maps.inflight[a.id];
      [Record(LaunchKeyOf(cfg, s.maps, a.id, e), a.cpu, LaunchHit(Elapsed(e, a.now)))]
    else []
  }

  ghost predicate Follows<K(!new)>(shape: Shape, t: Table<K>, t': Table<K>, acts: seq<Action<K>>) {
    if acts == [] then t' == t else Enabled(shape, t, acts[0]) && t' == Step(shape, t, acts[0])
  }

  lemma CloseAgg(cfg: Config, s: System, a: Event)
    requires Ready(cfg, s, a) && (a.Exit? || a.MallocExit?)
    ensures Follows(AggShape(cfg), AggTable(s), AggTable(Close(cfg, s, a.id, a.cpu, a.rc, a.now, a.room)),
                    AggActions(cfg, s, a))
  {
  }

  /** Every step of the system is at most one step of the table. */
  lemma NextAgg(cfg: Config, s: System, a: Event)
    requires Ready(cfg, s, a)
    ensures Follows(AggShape(cfg), AggTable(s), AggTable(Next(cfg, s, a)), AggActions(cfg, s, a))
  {
    match a
    case Exit(_, _, _, _, _) => CloseAgg(cfg, s, a);
    case MallocExit(id, _, _, _, _, devPtr) => CloseAgg(cfg, s.(maps := TrackMalloc(cfg, s.maps, id, devPtr)), a);
    case _ =>
  }

  lemma CloseNccl(cfg: Config, s: System, a: Event)
    requires Ready(cfg, s, a) && (a.Exit? || a.MallocExit?)
    ensures Follows(NcclShape(cfg), NcclTable(s), NcclTable(Close(cfg, s, a.id, a.cpu, a.rc, a.now, a.room)),
                    NcclActions(cfg, s, a))
  {
  }

  /** Every step of the system is at most one step of the table. */
  lemma NextNccl(cfg: Config, s: System, a: Event)
    requires Ready(cfg, s, a)
    ensures Follows(NcclShape(cfg), NcclTable(s), NcclTable(Next(cfg, s, a)), NcclActions(cfg, s, a))
  {
    match a
    case Exit(_, _, _, _, _) => CloseNccl(cfg, s, a);
    case MallocExit(id, _, _, _, _, devPtr) => CloseNccl(cfg, s.(maps := TrackMalloc(cfg, s.maps, id, devPtr)), a);
    case _ =>
  }

  lemma CloseLaunch(cfg: Config, s: System, a: Event)
    requires Ready(cfg, s, a) && (a.Exit? || a.MallocExit?)
    ensures Follows(LaunchShape(cfg), LaunchTable(s), LaunchTable(Close(cfg, s, a.id, a.cpu, a.rc, a.now, a.room)),
                    LaunchActions(cfg, s, a))
  {
  }

  /** Every step of the system is at most one step of the table. */
  lemma NextLaunch(cfg: Config, s: System, a: Event)
    requires Ready(cfg, s, a)
    ensures Follows(LaunchShape(cfg), LaunchTable(s), LaunchTable(Next(cfg, s, a)), LaunchActions(cfg, s, a))
  {
    match a
    case Exit(_, _, _, _, _) => CloseLaunch(cfg, s, a);
    case MallocExit(id, _, _, _, _, devPtr) => CloseLaunch(cfg, s.(maps := TrackMalloc(cfg, s.maps, id, devPtr)), a);
    case _ =>
  }

  lemma NextHealthy(cfg: Config, s: System, a: Event)
    requires Ready(cfg, s, a)
    ensures Healthy(cfg, Next(cfg, s, a))
  {
    NextAgg(cfg, s, a);
    NextNccl(cfg, s, a);
    NextLaunch(cfg, s, a);
  }

  lemma {:induction false} RunHealthy(cfg: Config, states: seq<System>, events: seq<Event>, k: nat)
    requires IsRun(cfg, states, events) && k <= |events|
    ensures Healthy(cfg, states[k])
  {
    if k > 0 {
      NextHealthy(cfg, states[k - 1], events[k - 1]);
    }
  }

  // ----- drains whose delete follows the lookup at once

  ghost predicate AtomicDrains(events: seq<Event>) {
    forall j :: 0 <= j < |events| - 1 ==>
      && (events[j].DrainAgg? && events[j].aggStep.Lookup? ==> events[j + 1] == DrainAgg(Delete))
      && (events[j].DrainNccl? && events[j].ncclStep.Lookup? ==> events[j + 1] == DrainNccl(Delete))
      && (events[j].DrainLaunch? && events[j].launchStep.Lookup? ==> events[j + 1] == DrainLaunch(Delete))
  }

  /** Nothing raced, and a drain is pending only right after its lookup. */
  ghost predicate Clean<K(!new)>(t: Table<K>, acts: seq<Action<K>>) {
    Unraced(t) && (t.past.pending != [] ==> acts != [] && acts[0].Lookup?)
  }

  lemma FollowClean<K(!new)>(shape: Shape, t: Table<K>, t': Table<K>, before: seq<Action<K>>, acts: seq<Action<K>>)
    requires Follows(shape, t, t', acts) && Clean(t, before)
    requires before != [] && before[0].Lookup? ==> acts == [Delete]
    ensures Clean(t', acts)
  {
    if acts != [] {
      StepUnraced(shape, t, acts[0]);
    }
  }

  /** What the last step before state `k` did to a table. */
  ghost function LastAgg(cfg: Config, states: seq<System>, events: seq<Event>, k: nat): seq<Action<AggKey>>
    requires IsRun(cfg, states, events) && k <= |events|
  {
    if k == 0 then [] else AggActions(cfg, states[k - 1], events[k - 1])
  }

  ghost function LastNccl(cfg: Config, states: seq<System>, events: seq<Event>, k: nat): seq<Action<AggKey>>
    requires IsRun(cfg, states, events) && k <= |events|
  {
    if k == 0 then [] else NcclActions(cfg, states[k - 1], events[k - 1])
  }

  ghost function LastLaunch(cfg: Config, states: seq<System>, events: seq<Event>, k: nat): seq<Action<LaunchKey>>
    requires IsRun(cfg, states, events) && k <= |events|
  {
    if k == 0 then [] else LaunchActions(cfg, states[k - 1], events[k - 1])
  }

  lemma DeleteFollowsAgg(cfg: Config, states: seq<System>, events: seq<Event>, k: nat)
    requires IsRun(cfg, states, events) && AtomicDrains(events) && k < |events|
    requires LastAgg(cfg, states, events, k) != [] && LastAgg(cfg, states, events, k)[0].Lookup?
    ensures AggActions(cfg, states[k], events[k]) == [Delete]
  {
    assert events[k - 1].DrainAgg? && events[k - 1 + 1] == DrainAgg(Delete);
  }

  /** With atomic drains nothing is lost between a lookup and its delete. */
  lemma {:induction false} RunCleanAgg(cfg: Config, states: seq<System>, events: seq<Event>, k: nat)
    requires IsRun(cfg, states, events) && AtomicDrains(events) && k <= |events|
    ensures Clean(AggTable(states[k]), LastAgg(cfg, states, events, k))
  {
    if k > 0 {
      var s, a := states[k - 1], events[k - 1];
      RunCleanAgg(cfg, states, events, k - 1);
      NextAgg(cfg, s, a);
      var last := LastAgg(cfg, states, events, k - 1);
      if last != [] && last[0].Lookup? {
        DeleteFollowsAgg(cfg, states, events, k - 1);
      }
      FollowClean(AggShape(cfg), AggTable(s), AggTable(states[k]), last, AggActions(cfg, s, a));
    }
  }

  lemma DeleteFollowsNccl(cfg: Config, states: seq<System>, events: seq<Event>, k: nat)
    requires IsRun(cfg, states, events) && AtomicDrains(events) && k < |events|
    requires LastNccl(cfg, states, events, k) != [] && LastNccl(cfg, states, events, k)[0].Lookup?
    ensures NcclActions(cfg, states[k], events[k]) == [Delete]
  {
    assert events[k - 1].DrainNccl? && events[k - 1 + 1] == DrainNccl(Delete);
  }

  lemma {:induction false} RunCleanNccl(cfg: Config, states: seq<System>, events: seq<Event>, k: nat)
    requires IsRun(cfg, states, events) && AtomicDrains(events) && k <= |events|
    ensures Clean(NcclTable(states[k]), LastNccl(cfg, states, events, k))
  {
    if k > 0 {
      var s, a := states[k - 1], events[k - 1];
      RunCleanNccl(cfg, states, events, k - 1);
      NextNccl(cfg, s, a);
      var last := LastNccl(cfg, states, events, k - 1);
      if last != [] && last[0].Lookup? {
        DeleteFollowsNccl(cfg, states, events, k - 1);
      }
      FollowClean(NcclShape(cfg), NcclTable(s), NcclTable(states[k]), last, NcclActions(cfg, s, a));
    }
  }

  lemma DeleteFollowsLaunch(cfg: Config, states: seq<System>, events: seq<Event>, k: nat)
    requires IsRun(cfg, states, events) && AtomicDrains(events) && k < |events|
    requires LastLaunch(cfg, states, events, k) != [] && LastLaunch(cfg, states, events, k)[0].Lookup?
    ensures LaunchActions(cfg, states[k], events[k]) == [Delete]
  {
    assert events[k - 1].DrainLaunch? && events[k - 1 + 1] == DrainLaunch(Delete);
  }

  lemma {:induction false} RunCleanLaunch(cfg: Config, states: seq<System>, events: seq<Event>, k: nat)
    requires IsRun(cfg, states, events) && AtomicDrains(events) && k <= |events|
    ensures Clean(LaunchTable(states[k]), LastLaunch(cfg, states, events, k))
  {
    if k > 0 {
      var s, a := states[k - 1], events[k - 1];
      RunCleanLaunch(cfg, states, events, k - 1);
      NextLaunch(cfg, s, a);
      var last := LastLaunch(cfg, states, events, k - 1);
      if last != [] && last[0].Lookup? {
        DeleteFollowsLaunch(cfg, states, events, k - 1);
      }
      FollowClean(LaunchShape(cfg), LaunchTable(s), LaunchTable(states[k]), last, LaunchActions(cfg, s, a));
    }
  }
}
