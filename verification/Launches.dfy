/** Kernel launches over whole runs: every completed launch is published, resident, counted as
    dropped, or was lost between a drain's lookup and delete; and the two ways a launch can be
    published exclude each other. */
module Launches {
  import opened Sums
  import opened Events
  import opened PerCpuTable
  import opened Histograms
  import opened Probes
  import opened Pipeline

  function Every<K>(): K -> bool {
    (k: K) => true
  }

  /** The 64-bit count of the touched cell does not wrap. */
  ghost predicate CountRoomy<K(!new)>(shape: Shape, t: Table<K>, acts: seq<Action<K>>) {
    acts != [] ==>
      && Enabled(shape, t, acts[0])
      && (acts[0].Record? ==> RowOf(shape, t.rows, acts[0].key)[acts[0].cpu].count + acts[0].hit.mul < U64)
  }

  lemma FollowCount<K(!new)>(shape: Shape, t: Table<K>, t': Table<K>, acts: seq<Action<K>>, select: K -> bool)
    requires Follows(shape, t, t', acts) && CountRoomy(shape, t, acts)
    requires Conserved(Count(select), 0, t)
    ensures Conserved(Count(select), 0, t')
  {
    if acts != [] {
      DividesZero(0);
      StepConserves(Count(select), 0, shape, t, acts[0]);
    }
  }

  predicate AllOf<K>(mul: nat, log: seq<(K, Hit)>) {
    forall e :: 0 <= e < |log| ==> log[e].1.mul == mul
  }

  /** With a fixed multiplier the recorded count is that multiple of the number of hits. */
  lemma {:induction false} CountIsLength<K(!new)>(mul: nat, log: seq<(K, Hit)>)
    requires AllOf(mul, log)
    ensures SumOver(log, HitWeight(Count(Every()))) == mul * |log|
  {
    if log != [] {
      var n := |log| - 1;
      CountIsLength(mul, log[..n]);
      assert mul * (n + 1) == mul * n + mul;
    }
  }

  function LaunchRecord(): Emitted -> int {
    (r: Emitted) => if r.eventType == CUDA_LAUNCH_KERNEL then 1 else 0
  }

  function CompletedLaunches(s: System): int {
    SumOver(s.records, LaunchRecord())
  }

  function TotalDropped(counters: seq<nat>): int {
    SumOver(counters, Id())
  }

  ghost predicate LogMatches(s: System) {
    AllOf(1, s.launch.log) && AllOf(1, s.launch.rejected) && |s.launch.log| == CompletedLaunches(s)
  }

  ghost predicate DropsMatch(s: System) {
    |s.launch.rejected| == TotalDropped(s.maps.launchDropped)
  }

  ghost predicate Ledger(s: System) {
    LogMatches(s) && DropsMatch(s)
  }

  ghost predicate DropsFit(s: System) {
    forall c :: 0 <= c < |s.maps.launchDropped| ==> s.maps.launchDropped[c] + 1 < U64
  }

  lemma NoteKeeps<K(!new)>(mul: nat, shape: Shape, t: Table<K>, key: K, h: Hit)
    requires AllOf(mul, t.past.log) && AllOf(mul, t.past.rejected) && h.mul == mul
    ensures AllOf(mul, Note(shape, t, key, h).log) && AllOf(mul, Note(shape, t, key, h).rejected)
    ensures |Note(shape, t, key, h).log| == |t.past.log| + 1
  {
  }

  lemma RecordsAppend(records: seq<Emitted>, r: Emitted)
    ensures SumOver(records + [r], LaunchRecord()) ==
            SumOver(records, LaunchRecord()) + if r.eventType == CUDA_LAUNCH_KERNEL then 1 else 0
  {
    SumOverAppend(records, r, LaunchRecord());
  }

  predicate ClosesLaunch(s: System, id: ThreadId) {
    id in s.maps.inflight && s.maps.inflight[id].eventType == CUDA_LAUNCH_KERNEL
  }

  lemma CloseCompleted(cfg: Config, s: System, a: Event)
    requires Ready(cfg, s, a) && (a.Exit? || a.MallocExit?)
    ensures CompletedLaunches(Close(cfg, s, a.id, a.cpu, a.rc, a.now, a.room)) ==
            CompletedLaunches(s) + if ClosesLaunch(s, a.id) then 1 else 0
  {
    if a.id in s.maps.inflight {
      var e := s.maps.inflight[a.id];
      RecordsAppend(s.records, Emitted(a.id, e.eventType, e.timestamp, a.now));
    }
  }

  lemma CloseLaunchLog(cfg: Config, s: System, a: Event)
    requires Ready(cfg, s, a) && (a.Exit? || a.MallocExit?)
    requires AllOf(1, s.launch.log) && AllOf(1, s.launch.rejected)
    ensures var r := Close(cfg, s, a.id, a.cpu, a.rc, a.now, a.room).launch;
            AllOf(1, r.log) && AllOf(1, r.rejected)
            && |r.log| == |s.launch.log| + if ClosesLaunch(s, a.id) then 1 else 0
  {
    if ClosesLaunch(s, a.id) {
      var e := s.maps.inflight[a.id];
      NoteKeeps(1, LaunchShape(cfg), LaunchTable(s), LaunchKeyOf(cfg, s.maps, a.id, e), LaunchHit(Elapsed(e, a.now)));
    }
  }

  lemma CloseLog(cfg: Config, s: System, a: Event)
    requires Ready(cfg, s, a) && (a.Exit? || a.MallocExit?) && LogMatches(s)
    ensures LogMatches(Close(cfg, s, a.id, a.cpu, a.rc, a.now, a.room))
  {
    CloseCompleted(cfg, s, a);
    CloseLaunchLog(cfg, s, a);
  }

  /** A counter that has room counts one more. */
  lemma BumpTotal(counters: seq<nat>, cpu: nat)
    requires cpu < |counters| && counters[cpu] + 1 < U64
    ensures TotalDropped(BumpDropped(counters, cpu)) == TotalDropped(counters) + 1
  {
    SumOverUpdate(counters, cpu, counters[cpu] + 1, Id());
  }

  /** A refused launch is noted as rejected and counted as dropped, and nothing else is either. */
  lemma CloseRefuses(cfg: Config, s: System, a: Event)
    requires Ready(cfg, s, a) && (a.Exit? || a.MallocExit?)
    ensures var s' := Close(cfg, s, a.id, a.cpu, a.rc, a.now, a.room);
            if LaunchRefused(cfg, s.maps, a.id)
            then |s'.launch.rejected| == |s.launch.rejected| + 1
                 && s'.maps.launchDropped == BumpDropped(s.maps.launchDropped, a.cpu)
            else |s'.launch.rejected| == |s.launch.rejected| && s'.maps.launchDropped == s.maps.launchDropped
  {
  }

  lemma CloseDrops(cfg: Config, s: System, a: Event)
    requires Ready(cfg, s, a) && (a.Exit? || a.MallocExit?) && DropsMatch(s) && DropsFit(s)
    ensures DropsMatch(Close(cfg, s, a.id, a.cpu, a.rc, a.now, a.room))
  {
    BumpTotal(s.maps.launchDropped, a.cpu);
    CloseRefuses(cfg, s, a);
  }

  lemma CloseLedger(cfg: Config, s: System, a: Event)
    requires Ready(cfg, s, a) && (a.Exit? || a.MallocExit?)
    requires Ledger(s) && DropsFit(s)
    ensures Ledger(Close(cfg, s, a.id, a.cpu, a.rc, a.now, a.room))
  {
    CloseLog(cfg, s, a);
    CloseDrops(cfg, s, a);
  }

  lemma NextLedger(cfg: Config, s: System, a: Event)
    requires Ready(cfg, s, a) && Ledger(s) && DropsFit(s)
    ensures Ledger(Next(cfg, s, a))
  {
    match a
    case Exit(_, _, _, _, _) => CloseLedger(cfg, s, a);
    case MallocExit(id, _, _, _, _, devPtr) => CloseLedger(cfg, s.(maps := TrackMalloc(cfg, s.maps, id, devPtr)), a);
    case _ =>
  }

  ghost predicate NothingWraps(cfg: Config, states: seq<System>, events: seq<Event>)
    requires IsRun(cfg, states, events)
  {
    forall j :: 0 <= j < |events| ==>
      && DropsFit(states[j])
      && CountRoomy(LaunchShape(cfg), LaunchTable(states[j]), LaunchActions(cfg, states[j], events[j]))
  }

  lemma {:induction false} RunLedger(cfg: Config, states: seq<System>, events: seq<Event>, k: nat)
    requires IsRun(cfg, states, events) && NothingWraps(cfg, states, events) && k <= |events|
    ensures Ledger(states[k])
    ensures Conserved(Count(Every()), 0, LaunchTable(states[k]))
  {
    if k == 0 {
      EmptyConserved(Count<LaunchKey>(Every()), 0);
      SumOverZero(states[0].maps.launchDropped, Id());
    } else {
      RunLedger(cfg, states, events, k - 1);
      var s, a := states[k - 1], events[k - 1];
      NextLedger(cfg, s, a);
      NextLaunch(cfg, s, a);
      FollowCount(LaunchShape(cfg), LaunchTable(s), LaunchTable(states[k]), LaunchActions(cfg, s, a), Every());
    }
  }

  /** Completed launches = published + resident in LAUNCH_AGG + LAUNCH_DROPPED + updates that landed
      between a drain's lookup and its delete, in every state of every run; with atomic drains there are
      none of the last. */
  lemma LaunchConservation(cfg: Config, states: seq<System>, events: seq<Event>, k: nat)
    requires IsRun(cfg, states, events) && NothingWraps(cfg, states, events) && k <= |events|
    ensures var s, m := states[k], Count<LaunchKey>(Every());
            CompletedLaunches(s) ==
            Published(m, LaunchTable(s)) + Resident(m, LaunchTable(s)) + TotalDropped(s.maps.launchDropped)
            + Raced(m, LaunchTable(s))
            && (AtomicDrains(events) ==> Raced(m, LaunchTable(s)) == 0)
  {
    if AtomicDrains(events) {
      RunCleanLaunch(cfg, states, events, k);
      UnracedWeighsNothing(Count<LaunchKey>(Every()), LaunchTable(states[k]));
    }
    RunLedger(cfg, states, events, k);
    CountIsLength(1, states[k].launch.log);
    CountIsLength(1, states[k].launch.rejected);
  }

  // ----- the drain and the ring buffer never publish the same launch

  ghost predicate OnePath(cfg: Config, s: System) {
    && (cfg.detailed ==> s.launch.drained == [])
    && (!cfg.detailed ==> forall e :: 0 <= e < |s.maps.ring| ==> s.maps.ring[e].eventType != CUDA_LAUNCH_KERNEL)
  }

  lemma CloseOnePath(cfg: Config, s: System, a: Event)
    requires Ready(cfg, s, a) && (a.Exit? || a.MallocExit?) && OnePath(cfg, s)
    ensures OnePath(cfg, Close(cfg, s, a.id, a.cpu, a.rc, a.now, a.room))
  {
  }

  lemma NextOnePath(cfg: Config, s: System, a: Event)
    requires Ready(cfg, s, a) && OnePath(cfg, s)
    ensures OnePath(cfg, Next(cfg, s, a))
  {
    match a
    case Exit(_, _, _, _, _) => CloseOnePath(cfg, s, a);
    case MallocExit(id, _, _, _, _, devPtr) => CloseOnePath(cfg, s.(maps := TrackMalloc(cfg, s.maps, id, devPtr)), a);
    case _ =>
  }

  /** In every configuration and every reachable state, launches were published by the drain only or
      by the ring buffer only. */
  lemma {:induction false} NoLaunchPublishedTwice(cfg: Config, states: seq<System>, events: seq<Event>, k: nat)
    requires IsRun(cfg, states, events) && k <= |events|
    ensures OnePath(cfg, states[k])
  {
    if k > 0 {
      NoLaunchPublishedTwice(cfg, states, events, k - 1);
      NextOnePath(cfg, states[k - 1], events[k - 1]);
    }
  }

  /** A completed launch that LAUNCH_AGG accepted and for which the ring buffer had room is visible on
      neither path exactly when launches are sent one by one and its process is traced anonymously:
      it is not sent, and its row is never drained. */
  lemma LaunchReachesNeitherPath(cfg: Config, s: System, a: Event)
    requires Ready(cfg, s, a) && a.Exit? && Closes(s, a, ToLaunches) && a.room
    requires !LaunchRefused(cfg, s.maps, a.id)
    ensures var s' := Next(cfg, s, a);
            s'.maps.ring == s.maps.ring && (forall d: Action<LaunchKey> :: !Ready(cfg, s', DrainLaunch(d)))
            <==> cfg.detailed && Anonymous(cfg, s.maps, a.id.pid)
  {
    var s' := Next(cfg, s, a);
    if cfg.detailed {
      if Sent(cfg, s.maps, a.id) {
        assert |s'.maps.ring| == |s.maps.ring| + 1;
      }
    } else {
      NextHealthy(cfg, s, a);
      var key := LaunchKeyOf(cfg, s.maps, a.id, s.maps.inflight[a.id]);
      assert key in s'.maps.launches;
      var d := if s'.launch.pending == [] then Lookup(key) else Delete;
      assert Ready(cfg, s', DrainLaunch(d));
    }
  }

  /** From the start: one launch in a configuration that is both anonymous and detailed. It is counted,
      not sent, and never drained. */
  lemma InvisibleLaunchRun(cfg: Config) returns (states: seq<System>, events: seq<Event>)
    requires cfg.cpus > 0 && cfg.anonymous && cfg.detailed && cfg.launchSize > 0
    ensures IsRun(cfg, states, events) && |events| == 2
    ensures CompletedLaunches(states[2]) == 1 && states[2].maps.ring == [] && states[2].maps.launches != map[]
    ensures forall d: Action<LaunchKey> :: !Ready(cfg, states[2], DrainLaunch(d))
  {
    var id := ThreadId(7, 7);
    var enter, leave := Enter(id, 0, Entry(0, 1, 0, 0, CUDA_LAUNCH_KERNEL)), Exit(id, 0, 0, 0, true);
    StartRun(cfg);
    var launched := Next(cfg, Start(cfg), enter);
    NextHealthy(cfg, Start(cfg), enter);
    Extend(cfg, [Start(cfg)], [], enter);
    states, events := [Start(cfg)] + [launched], [] + [enter];
    assert launched.maps.inflight == map[id := enter.entry];
    Extend(cfg, states, events, leave);
    CloseCompleted(cfg, launched, leave);
    LaunchReachesNeitherPath(cfg, launched, leave);
    states, events := states + [Next(cfg, launched, leave)], events + [leave];
    assert LaunchKeyOf(cfg, launched.maps, id, enter.entry) in states[2].maps.launches;
  }

  // ----- the ring buffer

  /** The step closes a call that is sent to the ring buffer. */
  predicate Sends(cfg: Config, s: System, a: Event) {
    (a.Exit? || a.MallocExit?) && a.id in s.maps.inflight && Sent(cfg, s.maps, a.id)
  }

  ghost function SendsBefore(cfg: Config, states: seq<System>, events: seq<Event>, k: nat): nat
    requires IsRun(cfg, states, events) && k <= |events|
  {
    if k == 0 then 0
    else SendsBefore(cfg, states, events, k - 1) + if Sends(cfg, states[k - 1], events[k - 1]) then 1 else 0
  }

  ghost predicate RingFits(s: System) {
    forall c :: 0 <= c < |s.maps.dropped| ==> s.maps.dropped[c] + 1 < U64
  }

  function Delivered(s: System): int {
    |s.maps.ring| + TotalDropped(s.maps.dropped)
  }

  lemma CloseDelivers(cfg: Config, s: System, a: Event)
    requires Ready(cfg, s, a) && (a.Exit? || a.MallocExit?) && RingFits(s)
    ensures Delivered(Close(cfg, s, a.id, a.cpu, a.rc, a.now, a.room)) ==
            Delivered(s) + if Sends(cfg, s, a) then 1 else 0
  {
    BumpTotal(s.maps.dropped, a.cpu);
  }

  lemma NextDelivers(cfg: Config, s: System, a: Event)
    requires Ready(cfg, s, a) && RingFits(s)
    ensures Delivered(Next(cfg, s, a)) == Delivered(s) + if Sends(cfg, s, a) then 1 else 0
  {
    match a
    case Exit(_, _, _, _, _) => CloseDelivers(cfg, s, a);
    case MallocExit(id, _, _, _, _, devPtr) => CloseDelivers(cfg, s.(maps := TrackMalloc(cfg, s.maps, id, devPtr)), a);
    case _ =>
  }

  /** In every state of every run, the events sent are those in the ring buffer plus those DROPPED counts. */
  lemma {:induction false} RingConservation(cfg: Config, states: seq<System>, events: seq<Event>, k: nat)
    requires IsRun(cfg, states, events) && k <= |events|
    requires forall j :: 0 <= j < k ==> RingFits(states[j])
    ensures SendsBefore(cfg, states, events, k) == Delivered(states[k])
  {
    if k == 0 {
      SumOverZero(states[0].maps.dropped, Id());
    } else {
      RingConservation(cfg, states, events, k - 1);
      NextDelivers(cfg, states[k - 1], events[k - 1]);
    }
  }
}
