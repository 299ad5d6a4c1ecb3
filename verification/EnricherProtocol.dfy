/** The watcher and the event loop over the enricher's tables, one lock at a time: a resolve looks up,
    joins, marks and files; an invalidation collects, drops from the cache, drops from the promoted set
    and queues. Any step of one may fall between two steps of the other. */
module EnricherProtocol {
  import opened Collections
  import opened Enrichment
  import opened PromotionSync

  /** The watcher inside an event: the map is swapped and `cids` are to be invalidated; the affected
      processes are collected; they are dropped from the cache; they are dropped from the promoted set,
      and `flag` says that the dirty flag is still to be set. `relist`: negative entries are dropped
      afterwards. */
  datatype Watcher =
    | Waiting
    | Invalidating(cids: set<string>, relist: bool)
    | Collected(affected: set<nat>, relist: bool)
    | CacheDropped(affected: set<nat>, relist: bool)
    | PromotedDropped(affected: set<nat>, flag: bool, relist: bool)
    | Relisting

  /** The event loop: inside a resolve, inside an eviction, about to set the flag after an eviction, or
      inside a sync. */
  datatype Loop =
    | Idle
    | Looked(pid: nat, cgroup: Cgroup, found: Option<PodInfo>)
    | Joined(pid: nat, cgroup: Cgroup, found: Option<PodInfo>)
    | Marked(pid: nat, cgroup: Cgroup, found: Option<PodInfo>, flag: bool)
    | Evicting(pid: nat)
    | Evicted
    | Swapped
    | Read

  /** `cgroups`: where each process runs. `listed`: the relist being collected. `lastRead`, `synced`,
      `kernel`: the promoted set a sync last read, the one it last wrote, and UPGRADED_PIDS. `done`: some
      sync has finished. `baked`: the places in the labels of the metric handles of each process. `owed`:
      processes whose pod entry an invalidation dropped since the event loop last took the changed ones.
      `overflowed`: some set to be synced had more than 1024 processes. */
  datatype World = World(
    tables: Tables,
    dirty: bool,
    watcher: Watcher,
    loop: Loop,
    cgroups: map<nat, Cgroup>,
    listed: map<string, PodInfo>,
    lastRead: set<nat>,
    synced: set<nat>,
    kernel: set<nat>,
    done: bool,
    baked: map<nat, set<Place>>,
    owed: set<nat>,
    overflowed: bool)

  /** At the start nothing is known; the kernel map may hold anything that fits. */
  function Start(kernel: set<nat>): World {
    World(Tables(map[], map[], map[], {}, {}, false), false, Waiting, Idle, map[], map[],
          {}, {}, kernel, false, map[], {}, false)
  }

  datatype Step =
    // the event loop
    | LookStep(pid: nat)
    | JoinStep
    | MarkStep
    | SetFlag
    | FileStep
    | EvictCached(pid: nat)
    | EvictPromoted
    | SwapFlag
    | ReadSet
    | WriteKernel(written: set<nat>)
    | Take
    // the watcher
    | ListBegin
    | ListPod(pod: Pod)
    | ListEnd
    | PodApplied(pod: Pod)
    | PodDeleted(pod: Pod)
    | CollectStep
    | DropCachedStep
    | DropPromotedStep
    | SetFlagWatcher
    | QueueStep
    | DropNegative
    // the node
    | Move(pid: nat, to: Cgroup)

  function CgroupOf(w: World, pid: nat): Cgroup {
    if pid in w.cgroups then w.cgroups[pid] else Unreadable
  }

  function BakedFor(w: World, pid: nat): set<Place> {
    if pid in w.baked then w.baked[pid] else {}
  }

  function Baking(w: World, pid: nat, found: Option<PodInfo>): map<nat, set<Place>> {
    if found.Some? then w.baked[pid := BakedFor(w, pid) + {PlaceOf(found.value)}] else w.baked
  }

  predicate Resolving(w: World, pid: nat) {
    (w.loop.Looked? || w.loop.Joined? || w.loop.Marked?) && w.loop.pid == pid
  }

  /** A container id determines namespace, pod and container name, and a pod's containers name it. */
  ghost predicate Faithful(identity: string -> Place, p: Pod) {
    forall cid :: cid in p.containers ==>
      PlaceOf(p.containers[cid]) == identity(cid)
      && p.containers[cid].namespace == p.namespace && p.containers[cid].pod == p.name
  }

  ghost predicate Enabled(identity: string -> Place, w: World, s: Step) {
    match s
    case LookStep(_) => w.loop.Idle?
    case JoinStep => w.loop.Looked?
    case MarkStep => w.loop.Joined?
    case SetFlag => w.loop.Evicted? || (w.loop.Marked? && w.loop.flag)
    case FileStep => w.loop.Marked? && !w.loop.flag
    case EvictCached(_) => w.loop.Idle?
    case EvictPromoted => w.loop.Evicting?
    case SwapFlag => w.loop.Idle? && w.dirty
    case ReadSet => w.loop.Swapped?
    case WriteKernel(k) => w.loop.Read? && Written(w.kernel, Believed(w.kernel, w.synced), w.lastRead, k)
    case Take => w.loop.Idle?
    case ListBegin => w.watcher.Waiting?
    case ListPod(p) => w.watcher.Waiting? && Faithful(identity, p)
    case ListEnd => w.watcher.Waiting?
    case PodApplied(p) => w.watcher.Waiting? && Faithful(identity, p)
    case PodDeleted(_) => w.watcher.Waiting?
    case CollectStep => w.watcher.Invalidating?
    case DropCachedStep => w.watcher.Collected?
    case DropPromotedStep => w.watcher.CacheDropped?
    case SetFlagWatcher => w.watcher.PromotedDropped? && w.watcher.flag
    case QueueStep => w.watcher.PromotedDropped? && !w.watcher.flag
    case DropNegative => w.watcher.Relisting?
    case Move(pid, _) => pid !in w.tables.cache && !Resolving(w, pid)
  }

  function AfterEvent(relist: bool): Watcher {
    if relist then Relisting else Waiting
  }

  // ----- what a step does, component by component

  function CacheAfter(w: World, s: Step): map<nat, Option<PodInfo>> {
    match s
    case FileStep => if w.loop.Marked? then File(w.tables, w.loop.pid, w.loop.found).cache else w.tables.cache
    case EvictCached(pid) => w.tables.cache - {pid}
    case DropCachedStep =>
      if w.watcher.Collected? then DropCached(w.tables, w.watcher.affected).cache else w.tables.cache
    case DropNegative => RetainPositive(w.tables).cache
    case _ => w.tables.cache
  }

  function ContainersAfter(w: World, s: Step): map<string, PodInfo> {
    match s
    case ListEnd => FinishRelist(w.tables, w.listed).0.containers
    case PodApplied(p) => ApplyPod(w.tables, p).0.containers
    case PodDeleted(p) => DeletePod(w.tables, p).0.containers
    case _ => w.tables.containers
  }

  function MembersAfter(w: World, s: Step): map<string, set<nat>> {
    if s.JoinStep? && w.loop.Looked? then Join(w.tables, w.loop.pid, w.loop.cgroup).members else w.tables.members
  }

  function UpgradedAfter(w: World, s: Step): set<nat> {
    match s
    case MarkStep => if w.loop.Joined? then Mark(w.tables, w.loop.pid, w.loop.found).upgraded else w.tables.upgraded
    case EvictPromoted => if w.loop.Evicting? then w.tables.upgraded - {w.loop.pid} else w.tables.upgraded
    case DropPromotedStep =>
      if w.watcher.CacheDropped? then DropPromoted(w.tables, w.watcher.affected).upgraded else w.tables.upgraded
    case _ => w.tables.upgraded
  }

  function ChangedAfter(w: World, s: Step): set<nat> {
    match s
    case Take => TakeChanged(w.tables).0.changed
    case QueueStep =>
      if w.watcher.PromotedDropped? then Queue(w.tables, w.watcher.affected).changed else w.tables.changed
    case _ => w.tables.changed
  }

  function HasChangesAfter(w: World, s: Step): bool {
    match s
    case Take => TakeChanged(w.tables).0.hasChanges
    case QueueStep => w.watcher.PromotedDropped? || w.tables.hasChanges
    case _ => w.tables.hasChanges
  }

  function TablesAfter(w: World, s: Step): Tables {
    Tables(CacheAfter(w, s), ContainersAfter(w, s), MembersAfter(w, s), UpgradedAfter(w, s), ChangedAfter(w, s),
           HasChangesAfter(w, s))
  }

  function DirtyAfter(w: World, s: Step): bool {
    s.SetFlag? || s.SetFlagWatcher? || (w.dirty && !s.SwapFlag?)
  }

  function WatcherAfter(w: World, s: Step): Watcher {
    match s
    case ListEnd => Invalidating(FinishRelist(w.tables, w.listed).1, true)
    case PodApplied(p) => Invalidating(ApplyPod(w.tables, p).1, false)
    case PodDeleted(p) => Invalidating(DeletePod(w.tables, p).1, false)
    case CollectStep =>
      if !w.watcher.Invalidating? then w.watcher
      else if Affected(w.tables, w.watcher.cids) == {} then AfterEvent(w.watcher.relist)
      else Collected(Affected(w.tables, w.watcher.cids), w.watcher.relist)
    case DropCachedStep =>
      if w.watcher.Collected? then CacheDropped(w.watcher.affected, w.watcher.relist) else w.watcher
    case DropPromotedStep =>
      if !w.watcher.CacheDropped? then w.watcher
      else PromotedDropped(w.watcher.affected, UpgradedAfter(w, s) != w.tables.upgraded, w.watcher.relist)
    case SetFlagWatcher => if w.watcher.PromotedDropped? then w.watcher.(flag := false) else w.watcher
    case QueueStep => if w.watcher.PromotedDropped? then AfterEvent(w.watcher.relist) else w.watcher
    case DropNegative => Waiting
    case _ => w.watcher
  }

  function LoopAfter(w: World, s: Step): Loop {
    match s
    case LookStep(pid) =>
      if pid in w.tables.cache || CgroupOf(w, pid).Unreadable? then w.loop
      else Looked(pid, CgroupOf(w, pid), Lookup(w.tables, CgroupOf(w, pid)))
    case JoinStep => if w.loop.Looked? then Joined(w.loop.pid, w.loop.cgroup, w.loop.found) else w.loop
    case MarkStep =>
      if w.loop.Joined?
      then Marked(w.loop.pid, w.loop.cgroup, w.loop.found, Promoted(w.loop.found) && w.loop.pid !in w.tables.upgraded)
      else w.loop
    case SetFlag => if w.loop.Marked? then w.loop.(flag := false) else Idle
    case FileStep => Idle
    case EvictCached(pid) => Evicting(pid)
    case EvictPromoted => if w.loop.Evicting? && w.loop.pid in w.tables.upgraded then Evicted else Idle
    case SwapFlag => Swapped
    case ReadSet => Read
    case WriteKernel(_) => Idle
    case _ => w.loop
  }

  function ListedAfter(w: World, s: Step): map<string, PodInfo> {
    match s
    case ListBegin => map[]
    case ListPod(p) => w.listed + p.containers
    case ListEnd => map[]
    case _ => w.listed
  }

  /** A handle bakes the place that a look-up answers from the cache or that a resolve files. */
  function BakedAfter(w: World, s: Step): map<nat, set<Place>> {
    match s
    case LookStep(pid) => if pid in w.tables.cache then Baking(w, pid, w.tables.cache[pid]) else w.baked
    case FileStep => if w.loop.Marked? then Baking(w, w.loop.pid, w.loop.found) else w.baked
    case EvictCached(pid) => w.baked - {pid}
    case Take => w.baked - TakeChanged(w.tables).1
    case _ => w.baked
  }

  function OwedAfter(w: World, s: Step): set<nat> {
    match s
    case DropCachedStep =>
      w.owed + set pid | pid in w.tables.cache && w.tables.cache[pid].Some?
                 && w.watcher.Collected? && pid in w.watcher.affected
    case Take => w.owed - TakeChanged(w.tables).1
    case _ => w.owed
  }

  function Next(w: World, s: Step): World {
    World(TablesAfter(w, s), DirtyAfter(w, s), WatcherAfter(w, s), LoopAfter(w, s),
          if s.Move? then w.cgroups[s.pid := s.to] else w.cgroups,
          ListedAfter(w, s),
          if s.ReadSet? then w.tables.upgraded else w.lastRead,
          if s.WriteKernel? then w.lastRead else w.synced,
          if s.WriteKernel? then s.written else w.kernel,
          w.done || s.WriteKernel?,
          BakedAfter(w, s),
          OwedAfter(w, s),
          w.overflowed || (s.ReadSet? && |w.tables.upgraded| > CAPACITY))
  }

  ghost predicate StepAt(identity: string -> Place, worlds: seq<World>, steps: seq<Step>, k: nat)
    requires |worlds| == |steps| + 1 && k < |steps|
  {
    Enabled(identity, worlds[k], steps[k]) && worlds[k + 1] == Next(worlds[k], steps[k])
  }

  ghost predicate IsRun(identity: string -> Place, worlds: seq<World>, steps: seq<Step>) {
    && |worlds| == |steps| + 1 && worlds[0] == Start(worlds[0].kernel) && |worlds[0].kernel| <= CAPACITY
    && forall k :: 0 <= k < |steps| ==> StepAt(identity, worlds, steps, k)
  }

  lemma Extend(identity: string -> Place, worlds: seq<World>, steps: seq<Step>, s: Step)
    requires IsRun(identity, worlds, steps) && Enabled(identity, worlds[|steps|], s)
    ensures IsRun(identity, worlds + [Next(worlds[|steps|], s)], steps + [s])
  {
    var longer, more := worlds + [Next(worlds[|steps|], s)], steps + [s];
    forall k | 0 <= k < |more| ensures StepAt(identity, longer, more, k) {
      assert k < |steps| ==> StepAt(identity, worlds, steps, k);
    }
  }

  ghost predicate Reachable(identity: string -> Place, w: World) {
    exists worlds, steps :: IsRun(identity, worlds, steps) && worlds[|steps|] == w
  }

  lemma Reach(identity: string -> Place, w: World, s: Step, w': World)
    requires Reachable(identity, w) && Enabled(identity, w, s) && w' == Next(w, s)
    ensures Reachable(identity, w')
  {
    var worlds, steps :| IsRun(identity, worlds, steps) && worlds[|steps|] == w;
    Extend(identity, worlds, steps, s);
    assert (worlds + [w'])[|steps + [s]|] == w';
  }

  // ----- uninterrupted, the steps are the methods

  /** A resolve that nothing interrupts does what `resolve_k8s` does as a whole. */
  lemma ResolveUninterrupted(w: World, pid: nat)
    requires w.loop.Idle? && pid !in w.tables.cache && !CgroupOf(w, pid).Unreadable?
    ensures var looked := Next(w, LookStep(pid));
            var marked := Next(Next(looked, JoinStep), MarkStep);
            var ready := if marked.loop.flag then Next(marked, SetFlag) else marked;
            Next(ready, FileStep).tables == Enrichment.Resolve(w.tables, pid, CgroupOf(w, pid)).0
  {
  }

  function Swept(w: World): (r: World)
    requires w.watcher.Collected?
    ensures r.tables == DropPromoted(DropCached(w.tables, w.watcher.affected), w.watcher.affected)
    ensures r.watcher.PromotedDropped? && r.watcher.affected == w.watcher.affected
  {
    Next(Next(w, DropCachedStep), DropPromotedStep)
  }

  function Flagged(w: World): (r: World)
    requires w.watcher.PromotedDropped?
    ensures r.tables == w.tables && r.watcher == w.watcher.(flag := false)
  {
    if w.watcher.flag then Next(w, SetFlagWatcher) else w
  }

  function Queued(w: World): (r: World)
    requires w.watcher.PromotedDropped? && !w.watcher.flag
    ensures r.tables == Queue(w.tables, w.watcher.affected)
  {
    Next(w, QueueStep)
  }

  lemma CollectedTables(w: World)
    requires w.watcher.Invalidating?
    ensures var c := Next(w, CollectStep);
            c.tables == w.tables &&
            if Affected(w.tables, w.watcher.cids) == {} then !c.watcher.Collected?
            else c.watcher.Collected? && c.watcher.affected == Affected(w.tables, w.watcher.cids)
  {
  }

  /** So does an invalidation. */
  lemma InvalidationUninterrupted(w: World)
    requires w.watcher.Invalidating?
    ensures var collected := Next(w, CollectStep);
            InvalidateContainers(w.tables, w.watcher.cids) ==
            if collected.watcher.Collected? then Queued(Flagged(Swept(collected))).tables else collected.tables
  {
    CollectedTables(w);
  }
}
