/** Pod labels over every interleaving of the watcher and the event loop: dropped processes are
    delivered, no metric handle keeps a forgotten place, and a cached pod entry is coherent with the
    container map exactly when no invalidation overtook the resolve that filed it. */
module PodLabels {
  import opened Collections
  import opened Enrichment
  import opened EnricherProtocol

  // ----- what every step keeps

  ghost predicate MapsFaithful(identity: string -> Place, w: World) {
    && (forall cid :: cid in w.tables.containers ==> PlaceOf(w.tables.containers[cid]) == identity(cid))
    && (forall cid :: cid in w.listed ==> PlaceOf(w.listed[cid]) == identity(cid))
  }

  /** A process being resolved is not cached, still runs where it was looked up, and what was found for
      it is its container's place; once joined it is a member of the container. */
  ghost predicate LoopFaithful(identity: string -> Place, w: World) {
    && (w.loop.Evicting? ==> w.loop.pid !in w.tables.cache)
    && (w.loop.Looked? || w.loop.Joined? || w.loop.Marked? ==>
          && w.loop.pid !in w.tables.cache && w.loop.cgroup == CgroupOf(w, w.loop.pid)
          && (w.loop.found.Some? ==>
                w.loop.cgroup.InContainer? && PlaceOf(w.loop.found.value) == identity(w.loop.cgroup.id))
          && (!w.loop.Looked? && w.loop.cgroup.InContainer? ==> w.loop.pid in MembersOf(w.tables, w.loop.cgroup.id)))
  }

  /** The processes an invalidation has dropped and not queued yet. */
  function Underway(w: World): set<nat> {
    if w.watcher.CacheDropped? || w.watcher.PromotedDropped? then w.watcher.affected else {}
  }

  /** The flag tells whether there are changed processes, and the owed ones are among them or about to
      be queued. */
  ghost predicate Delivering(w: World) {
    (w.tables.hasChanges <==> w.tables.changed != {}) && w.owed <= w.tables.changed + Underway(w)
    && (w.watcher.Collected? || w.watcher.CacheDropped? || w.watcher.PromotedDropped? ==> w.watcher.affected != {})
  }

  /** A place in a metric handle is the one cached for the process, or the process is queued or about to
      be. */
  ghost predicate BakedFresh(w: World) {
    forall pid, place :: pid in w.baked && place in w.baked[pid] ==> Remembered(w, pid, place)
  }

  ghost predicate Remembered(w: World, pid: nat, place: Place) {
    || pid in w.tables.changed + Underway(w)
    || (pid in w.tables.cache && w.tables.cache[pid].Some? && PlaceOf(w.tables.cache[pid].value) == place)
  }

  lemma NextFaithful(identity: string -> Place, w: World, s: Step)
    requires Enabled(identity, w, s) && MapsFaithful(identity, w)
    ensures MapsFaithful(identity, Next(w, s))
  {
  }

  lemma NextLoopFaithful(identity: string -> Place, w: World, s: Step)
    requires Enabled(identity, w, s) && MapsFaithful(identity, w) && LoopFaithful(identity, w)
    ensures LoopFaithful(identity, Next(w, s))
  {
  }

  lemma NextDelivering(identity: string -> Place, w: World, s: Step)
    requires Enabled(identity, w, s) && Delivering(w)
    ensures Delivering(Next(w, s))
  {
  }

  predicate LoopStep(s: Step) {
    || s.LookStep? || s.JoinStep? || s.MarkStep? || s.SetFlag? || s.FileStep? || s.EvictCached? || s.EvictPromoted?
    || s.SwapFlag? || s.ReadSet? || s.WriteKernel? || s.Take?
  }

  lemma LoopRemembered(identity: string -> Place, w: World, s: Step, pid: nat, place: Place)
    requires Enabled(identity, w, s) && Delivering(w) && LoopFaithful(identity, w) && Remembered(w, pid, place)
    requires LoopStep(s)
    ensures pid in Next(w, s).baked ==> Remembered(Next(w, s), pid, place)
  {
  }

  lemma WatcherRemembered(identity: string -> Place, w: World, s: Step, pid: nat, place: Place)
    requires Enabled(identity, w, s) && Delivering(w) && Remembered(w, pid, place) && !LoopStep(s)
    ensures Remembered(Next(w, s), pid, place)
  {
  }

  /** A remembered place stays remembered while its handle does. */
  lemma NextRemembered(identity: string -> Place, w: World, s: Step, pid: nat, place: Place)
    requires Enabled(identity, w, s) && Delivering(w) && LoopFaithful(identity, w) && Remembered(w, pid, place)
    ensures pid in Next(w, s).baked ==> Remembered(Next(w, s), pid, place)
  {
    if LoopStep(s) {
      LoopRemembered(identity, w, s, pid, place);
    } else {
      WatcherRemembered(identity, w, s, pid, place);
    }
  }

  /** Steps that make a handle bake the place they have just read or filed. */
  lemma NextBakes(identity: string -> Place, w: World, s: Step, pid: nat, place: Place)
    requires Enabled(identity, w, s) && pid in Next(w, s).baked && place in Next(w, s).baked[pid]
    ensures (pid in w.baked && place in w.baked[pid]) || Remembered(Next(w, s), pid, place)
  {
  }

  lemma NextBaked(identity: string -> Place, w: World, s: Step)
    requires Enabled(identity, w, s) && BakedFresh(w) && Delivering(w) && LoopFaithful(identity, w)
    ensures BakedFresh(Next(w, s))
  {
    var w' := Next(w, s);
    forall pid, place | pid in w'.baked && place in w'.baked[pid] ensures Remembered(w', pid, place) {
      NextBakes(identity, w, s, pid, place);
      if pid in w.baked && place in w.baked[pid] {
        NextRemembered(identity, w, s, pid, place);
      }
    }
  }

  /** In every reachable state of every interleaving the maps and the resolve in progress are faithful,
      dropped processes are queued for the event loop or about to be, and no metric handle keeps a place
      that is neither cached nor queued. */
  lemma {:induction false} LabelsDelivered(identity: string -> Place, worlds: seq<World>, steps: seq<Step>, k: nat)
    requires IsRun(identity, worlds, steps) && k < |worlds|
    ensures MapsFaithful(identity, worlds[k]) && LoopFaithful(identity, worlds[k])
    ensures Delivering(worlds[k]) && BakedFresh(worlds[k])
  {
    if k > 0 {
      LabelsDelivered(identity, worlds, steps, k - 1);
      assert StepAt(identity, worlds, steps, k - 1);
      NextFaithful(identity, worlds[k - 1], steps[k - 1]);
      NextLoopFaithful(identity, worlds[k - 1], steps[k - 1]);
      NextDelivering(identity, worlds[k - 1], steps[k - 1]);
      NextBaked(identity, worlds[k - 1], steps[k - 1]);
    }
  }

  /** A process whose pod entry an invalidation dropped is handed to the event loop by the first take
      after the invalidation, and no handle of it is left. */
  lemma DroppedIsDelivered(identity: string -> Place, worlds: seq<World>, steps: seq<Step>, k: nat, pid: nat)
    requires IsRun(identity, worlds, steps) && k < |steps| && steps[k].Take?
    requires pid in worlds[k].owed && pid !in Underway(worlds[k])
    ensures pid in TakeChanged(worlds[k].tables).1
    ensures pid !in worlds[k + 1].baked && pid !in worlds[k + 1].owed
  {
    LabelsDelivered(identity, worlds, steps, k);
    assert StepAt(identity, worlds, steps, k);
  }

  lemma OwedUntilTaken(identity: string -> Place, w: World, s: Step, pid: nat)
    requires Enabled(identity, w, s)
    ensures pid in w.owed && !s.Take? ==> pid in Next(w, s).owed
    ensures s.DropCachedStep? && pid in w.tables.cache && w.tables.cache[pid].Some? && pid !in Next(w, s).tables.cache
            ==> pid in Next(w, s).owed
  {
  }

  // ----- coherence

  /** The containers whose invalidation is still to be collected. */
  function ToCollect(w: World): set<string> {
    if w.watcher.Invalidating? then w.watcher.cids else {}
  }

  /** The process is collected and still to be dropped from the cache. */
  predicate ToDrop(w: World, pid: nat) {
    w.watcher.Collected? && pid in w.watcher.affected
  }

  /** A cached pod entry carries the place of the process's container, the process is a member of it, and
      the map still lists it with that place, or an invalidation is on its way that will drop the entry. */
  ghost predicate Coherent(identity: string -> Place, w: World, pid: nat) {
    pid in w.tables.cache && w.tables.cache[pid].Some? ==>
      var cgroup := CgroupOf(w, pid);
      && cgroup.InContainer?
      && PlaceOf(w.tables.cache[pid].value) == identity(cgroup.id)
      && pid in MembersOf(w.tables, cgroup.id)
      && (cgroup.id in w.tables.containers || cgroup.id in ToCollect(w) || ToDrop(w, pid))
  }

  lemma SwapCoherent(identity: string -> Place, w: World, s: Step, pid: nat)
    requires Enabled(identity, w, s) && MapsFaithful(identity, w) && Coherent(identity, w, pid)
    requires s.ListEnd? || s.PodApplied? || s.PodDeleted?
    ensures Coherent(identity, Next(w, s), pid)
  {
  }

  lemma CollectCoherent(identity: string -> Place, w: World, pid: nat)
    requires w.watcher.Invalidating? && Coherent(identity, w, pid)
    ensures Coherent(identity, Next(w, CollectStep), pid)
  {
    var cgroup := CgroupOf(w, pid);
    if cgroup.InContainer? && cgroup.id in w.watcher.cids && pid in MembersOf(w.tables, cgroup.id) {
      assert pid in Affected(w.tables, w.watcher.cids);
    }
  }

  lemma LoopCoherent(identity: string -> Place, w: World, s: Step, pid: nat)
    requires Enabled(identity, w, s) && Coherent(identity, w, pid)
    requires s.LookStep? || s.JoinStep? || s.MarkStep? || s.SetFlag? || (s.FileStep? && w.loop.pid != pid)
    ensures Coherent(identity, Next(w, s), pid)
  {
  }

  lemma OtherCoherent(identity: string -> Place, w: World, s: Step, pid: nat)
    requires Enabled(identity, w, s) && Coherent(identity, w, pid)
    requires !s.LookStep? && !s.JoinStep? && !s.MarkStep? && !s.SetFlag? && !s.FileStep?
    requires !s.ListEnd? && !s.PodApplied? && !s.PodDeleted? && !s.CollectStep?
    ensures Coherent(identity, Next(w, s), pid)
  {
  }

  /** Coherence can only be lost by filing. */
  lemma NextCoherent(identity: string -> Place, w: World, s: Step, pid: nat)
    requires Enabled(identity, w, s) && MapsFaithful(identity, w) && Coherent(identity, w, pid)
    requires s.FileStep? ==> w.loop.pid != pid
    ensures Coherent(identity, Next(w, s), pid)
  {
    if s.CollectStep? {
      CollectCoherent(identity, w, pid);
    } else if s.ListEnd? || s.PodApplied? || s.PodDeleted? {
      SwapCoherent(identity, w, s, pid);
    } else if s.LookStep? || s.JoinStep? || s.MarkStep? || s.SetFlag? || s.FileStep? {
      LoopCoherent(identity, w, s, pid);
    } else {
      OtherCoherent(identity, w, s, pid);
    }
  }

  // ----- the window of a resolve

  ghost predicate Unlisted(worlds: seq<World>, u: nat, f: nat, cid: string)
    requires f < |worlds|
  {
    forall v :: u < v <= f ==> cid !in worlds[v].tables.containers
  }

  ghost predicate DroppedBetween(steps: seq<Step>, c: nat, f: nat)
    requires f <= |steps|
  {
    exists d :: c < d < f && steps[d].DropCachedStep?
  }

  /** Since the container was last listed, an invalidation has been collected. */
  ghost predicate Passed(worlds: seq<World>, steps: seq<Step>, f: nat, cid: string)
    requires f < |worlds| == |steps| + 1
  {
    exists u, c :: 0 <= u < c < f && Unlisted(worlds, u, f, cid) && steps[c].CollectStep?
  }

  /** Some collection caught the process and has not been dropped from the cache yet. */
  ghost predicate Caught(worlds: seq<World>, steps: seq<Step>, f: nat, pid: nat)
    requires f < |worlds| == |steps| + 1
  {
    exists c :: 0 <= c < f && CatchesAt(worlds, steps, c, pid) && !DroppedBetween(steps, c, f)
  }

  ghost predicate CatchesAt(worlds: seq<World>, steps: seq<Step>, c: nat, pid: nat)
    requires c < |steps| < |worlds|
  {
    steps[c].CollectStep? && pid in Affected(worlds[c].tables, ToCollect(worlds[c]))
  }

  /** The resolve filed at step `f` was overtaken: the invalidation of its container came and went
      between the look-up and the filing. */
  ghost predicate Overtaken(worlds: seq<World>, steps: seq<Step>, f: nat, pid: nat, cid: string)
    requires f < |worlds| == |steps| + 1
  {
    Passed(worlds, steps, f, cid) && !Caught(worlds, steps, f, pid)
  }

  lemma DroppedStep(steps: seq<Step>, c: nat, k: nat)
    requires c < k < |steps|
    ensures DroppedBetween(steps, c, k + 1) <==> DroppedBetween(steps, c, k) || steps[k].DropCachedStep?
  {
  }

  lemma CatchStep(identity: string -> Place, worlds: seq<World>, steps: seq<Step>, k: nat, pid: nat)
    requires |worlds| == |steps| + 1 && k < |steps| && StepAt(identity, worlds, steps, k)
    ensures Caught(worlds, steps, k + 1, pid) <==>
            CatchesAt(worlds, steps, k, pid) || (Caught(worlds, steps, k, pid) && !steps[k].DropCachedStep?)
  {
    forall c: nat | c < k
      ensures DroppedBetween(steps, c, k + 1) <==> DroppedBetween(steps, c, k) || steps[k].DropCachedStep?
    {
      DroppedStep(steps, c, k);
    }
    if CatchesAt(worlds, steps, k, pid) {
      assert !DroppedBetween(steps, k, k + 1);
    }
  }

  lemma ToDropStep(identity: string -> Place, w: World, s: Step, pid: nat)
    requires Enabled(identity, w, s)
    ensures ToDrop(Next(w, s), pid) <==>
            (s.CollectStep? && pid in Affected(w.tables, ToCollect(w))) || (ToDrop(w, pid) && !s.DropCachedStep?)
  {
  }

  /** A caught process is one the watcher is about to drop. */
  lemma {:induction false} CaughtIsToDrop(identity: string -> Place, worlds: seq<World>, steps: seq<Step>, k: nat,
                                          pid: nat)
    requires IsRun(identity, worlds, steps) && k < |worlds|
    ensures Caught(worlds, steps, k, pid) <==> ToDrop(worlds[k], pid)
  {
    if k > 0 {
      CaughtIsToDrop(identity, worlds, steps, k - 1, pid);
      assert StepAt(identity, worlds, steps, k - 1);
      CatchStep(identity, worlds, steps, k - 1, pid);
      ToDropStep(identity, worlds[k - 1], steps[k - 1], pid);
    }
  }

  lemma PassStep(worlds: seq<World>, steps: seq<Step>, k: nat, cid: string)
    requires |worlds| == |steps| + 1 && k < |steps|
    ensures Passed(worlds, steps, k + 1, cid) ==> cid !in worlds[k + 1].tables.containers
    ensures cid in worlds[k].tables.containers ==> !Passed(worlds, steps, k + 1, cid)
    ensures cid !in worlds[k + 1].tables.containers && Passed(worlds, steps, k, cid) ==>
              Passed(worlds, steps, k + 1, cid)
    ensures Passed(worlds, steps, k + 1, cid) && !steps[k].CollectStep? ==> Passed(worlds, steps, k, cid)
  {
    if Passed(worlds, steps, k + 1, cid) {
      var u, c :| 0 <= u < c < k + 1 && Unlisted(worlds, u, k + 1, cid) && steps[c].CollectStep?;
      assert Unlisted(worlds, u, k, cid);
    }
    if cid !in worlds[k + 1].tables.containers && Passed(worlds, steps, k, cid) {
      var u, c :| 0 <= u < c < k && Unlisted(worlds, u, k, cid) && steps[c].CollectStep?;
      assert Unlisted(worlds, u, k + 1, cid);
    }
  }

  /** From a state that lists the container on, its invalidation has passed exactly when it is neither
      listed nor to be collected. */
  lemma {:induction false} PassedIsGone(identity: string -> Place, worlds: seq<World>, steps: seq<Step>, i: nat,
                                        k: nat, cid: string)
    requires IsRun(identity, worlds, steps) && i <= k < |worlds| && cid in worlds[i].tables.containers
    ensures Passed(worlds, steps, k, cid) <==> cid !in worlds[k].tables.containers && cid !in ToCollect(worlds[k])
  {
    if k == i {
      NotPassedWhileListed(worlds, steps, k, cid);
    } else {
      PassedIsGone(identity, worlds, steps, i, k - 1, cid);
      assert StepAt(identity, worlds, steps, k - 1);
      PassStep(worlds, steps, k - 1, cid);
      if steps[k - 1].CollectStep? && cid !in worlds[k - 1].tables.containers {
        LastListed(worlds, steps, i, k - 1, cid);
      }
    }
  }

  lemma NotPassedWhileListed(worlds: seq<World>, steps: seq<Step>, k: nat, cid: string)
    requires k < |worlds| == |steps| + 1 && cid in worlds[k].tables.containers
    ensures !Passed(worlds, steps, k, cid)
  {
  }

  /** A collection after the container was last listed passes it. */
  lemma {:induction false} LastListed(worlds: seq<World>, steps: seq<Step>, i: nat, c: nat, cid: string)
    requires |worlds| == |steps| + 1 && i <= c < |steps| && cid in worlds[i].tables.containers
    requires cid !in worlds[c].tables.containers && cid !in worlds[c + 1].tables.containers && steps[c].CollectStep?
    ensures Passed(worlds, steps, c + 1, cid)
  {
    var u := c;
    while cid !in worlds[u].tables.containers
      invariant i <= u <= c && Unlisted(worlds, u, c + 1, cid)
      decreases u
    {
      u := u - 1;
    }
    assert u < c;
  }

  /** Exactly when filing a pod entry leaves it coherent: the resolve, which looked the container up at
      step `i`, was not overtaken. */
  lemma FiledCoherentIff(identity: string -> Place, worlds: seq<World>, steps: seq<Step>, i: nat, f: nat, pid: nat,
                         cid: string)
    requires IsRun(identity, worlds, steps) && i <= f < |steps| && cid in worlds[i].tables.containers
    requires steps[f].FileStep? && Resolving(worlds[f], pid)
    requires worlds[f].loop.cgroup == InContainer(cid) && worlds[f].loop.found.Some?
    ensures Coherent(identity, worlds[f + 1], pid) <==> !Overtaken(worlds, steps, f, pid, cid)
  {
    LabelsDelivered(identity, worlds, steps, f);
    assert StepAt(identity, worlds, steps, f);
    PassedIsGone(identity, worlds, steps, i, f, cid);
    CaughtIsToDrop(identity, worlds, steps, f, pid);
    FiledCoherent(identity, worlds[f], pid, cid);
  }

  lemma FiledCoherent(identity: string -> Place, w: World, pid: nat, cid: string)
    requires Enabled(identity, w, FileStep) && LoopFaithful(identity, w) && w.loop.pid == pid
    requires w.loop.cgroup == InContainer(cid) && w.loop.found.Some?
    ensures Coherent(identity, Next(w, FileStep), pid) <==>
            cid in w.tables.containers || cid in ToCollect(w) || ToDrop(w, pid)
  {
  }

  predicate InResolve(l: Loop) {
    l.Looked? || l.Joined? || l.Marked?
  }

  /** A resolve in progress that found a pod has just looked it up, or goes on with what it found. */
  lemma LookedStep(identity: string -> Place, w: World, s: Step)
    requires Enabled(identity, w, s) && InResolve(Next(w, s).loop) && Next(w, s).loop.found.Some?
    ensures var l := Next(w, s).loop;
            if w.loop.Idle? then s == LookStep(l.pid) && l.cgroup.InContainer? && l.cgroup.id in w.tables.containers
            else InResolve(w.loop) && w.loop.pid == l.pid && w.loop.cgroup == l.cgroup && w.loop.found == l.found
  {
  }

  /** Every resolve in progress was looked up from a map that listed what it found. */
  lemma {:induction false} LookedFrom(identity: string -> Place, worlds: seq<World>, steps: seq<Step>, f: nat)
    returns (i: nat)
    requires IsRun(identity, worlds, steps) && f < |worlds|
    requires InResolve(worlds[f].loop) && worlds[f].loop.found.Some?
    ensures i < f && steps[i] == LookStep(worlds[f].loop.pid)
    ensures worlds[f].loop.cgroup.InContainer? && worlds[f].loop.cgroup.id in worlds[i].tables.containers
    ensures forall v :: i < v <= f ==> Resolving(worlds[v], worlds[f].loop.pid)
  {
    assert StepAt(identity, worlds, steps, f - 1);
    LookedStep(identity, worlds[f - 1], steps[f - 1]);
    if worlds[f - 1].loop.Idle? {
      i := f - 1;
    } else {
      i := LookedFrom(identity, worlds, steps, f - 1);
    }
  }

  /** No resolve that files a pod entry before state `k` is overtaken. */
  ghost predicate NoneOvertaken(worlds: seq<World>, steps: seq<Step>, k: nat)
    requires k < |worlds| == |steps| + 1
  {
    forall f :: 0 <= f < k ==> NotOvertaken(worlds, steps, f)
  }

  ghost predicate NotOvertaken(worlds: seq<World>, steps: seq<Step>, f: nat)
    requires f < |steps| < |worlds| == |steps| + 1
  {
    steps[f].FileStep? && worlds[f].loop.Marked? && worlds[f].loop.cgroup.InContainer? && worlds[f].loop.found.Some? ==>
      !Overtaken(worlds, steps, f, worlds[f].loop.pid, worlds[f].loop.cgroup.id)
  }

  ghost predicate AllCoherent(identity: string -> Place, w: World) {
    forall pid :: Coherent(identity, w, pid)
  }

  lemma StepCoherent(identity: string -> Place, worlds: seq<World>, steps: seq<Step>, f: nat, pid: nat)
    requires IsRun(identity, worlds, steps) && f < |steps| && Coherent(identity, worlds[f], pid)
    ensures NotOvertaken(worlds, steps, f) ==> Coherent(identity, worlds[f + 1], pid)
    ensures steps[f].FileStep? && Resolving(worlds[f], pid) && Coherent(identity, worlds[f + 1], pid) ==>
              NotOvertaken(worlds, steps, f)
  {
    LabelsDelivered(identity, worlds, steps, f);
    assert StepAt(identity, worlds, steps, f);
    var w := worlds[f];
    if steps[f].FileStep? && Resolving(w, pid) {
      if w.loop.found.Some? {
        var i := LookedFrom(identity, worlds, steps, f);
        FiledCoherentIff(identity, worlds, steps, i, f, pid, w.loop.cgroup.id);
      }
    } else {
      NextCoherent(identity, w, steps[f], pid);
    }
  }

  lemma {:induction false} NoneOvertakenCoherent(identity: string -> Place, worlds: seq<World>, steps: seq<Step>,
                                                 k: nat)
    requires IsRun(identity, worlds, steps) && k < |worlds| && NoneOvertaken(worlds, steps, k)
    ensures AllCoherent(identity, worlds[k])
  {
    if k > 0 {
      NoneOvertakenCoherent(identity, worlds, steps, k - 1);
      assert NotOvertaken(worlds, steps, k - 1);
      forall pid ensures Coherent(identity, worlds[k], pid) {
        StepCoherent(identity, worlds, steps, k - 1, pid);
      }
    }
  }

  /** Main theorem: all pod entries are coherent in all states up to `k` exactly when no resolve filed
      before `k` was overtaken. */
  lemma PodLabelsCoherentIff(identity: string -> Place, worlds: seq<World>, steps: seq<Step>, k: nat)
    requires IsRun(identity, worlds, steps) && k < |worlds|
    ensures (forall j :: 0 <= j <= k ==> AllCoherent(identity, worlds[j])) <==> NoneOvertaken(worlds, steps, k)
  {
    if NoneOvertaken(worlds, steps, k) {
      forall j | 0 <= j <= k ensures AllCoherent(identity, worlds[j]) {
        assert NoneOvertaken(worlds, steps, j) by {
          assert forall f :: 0 <= f < j ==> NotOvertaken(worlds, steps, f);
        }
        NoneOvertakenCoherent(identity, worlds, steps, j);
      }
    }
    if forall j :: 0 <= j <= k ==> AllCoherent(identity, worlds[j]) {
      forall f | 0 <= f < k ensures NotOvertaken(worlds, steps, f) {
        assert AllCoherent(identity, worlds[f]) && AllCoherent(identity, worlds[f + 1]);
        if steps[f].FileStep? && worlds[f].loop.Marked? {
          StepCoherent(identity, worlds, steps, f, worlds[f].loop.pid);
        }
      }
    }
  }

  /** In particular when no invalidation is collected while a process is being resolved. */
  ghost predicate Uninterrupted(worlds: seq<World>, steps: seq<Step>) {
    |worlds| == |steps| + 1 &&
    forall c :: 0 <= c < |steps| && InResolve(worlds[c].loop) ==> !steps[c].CollectStep?
  }

  lemma UninterruptedCoherent(identity: string -> Place, worlds: seq<World>, steps: seq<Step>, k: nat)
    requires IsRun(identity, worlds, steps) && Uninterrupted(worlds, steps) && k < |worlds|
    ensures AllCoherent(identity, worlds[k])
  {
    forall f | 0 <= f < k ensures NotOvertaken(worlds, steps, f) {
      if steps[f].FileStep? && worlds[f].loop.Marked? && worlds[f].loop.found.Some? {
        var i := LookedFrom(identity, worlds, steps, f);
        NotPassedInside(worlds, steps, i, f, worlds[f].loop.pid, worlds[f].loop.cgroup.id);
      }
    }
    NoneOvertakenCoherent(identity, worlds, steps, k);
  }

  lemma NotPassedInside(worlds: seq<World>, steps: seq<Step>, i: nat, f: nat, pid: nat, cid: string)
    requires Uninterrupted(worlds, steps) && i < f < |steps| && cid in worlds[i].tables.containers
    requires forall v :: i < v <= f ==> Resolving(worlds[v], pid)
    ensures !Passed(worlds, steps, f, cid)
  {
    forall u, c | 0 <= u < c < f && Unlisted(worlds, u, f, cid) ensures !steps[c].CollectStep? {
      assert u >= i;
      assert Resolving(worlds[c], pid);
    }
  }

  // ----- what an overtaken resolve leaves

  /** The entry of a process names a container that is neither listed nor about to be invalidated, and
      the process was never seen elsewhere. */
  ghost predicate Stale(w: World, pid: nat, cid: string, info: PodInfo) {
    && pid in w.tables.cache && w.tables.cache[pid] == Some(info)
    && cid !in w.tables.containers && cid !in ToCollect(w) && cid !in w.listed && !ToDrop(w, pid)
    && forall other :: other in w.tables.members && pid in w.tables.members[other] ==> other == cid
  }

  /** Neither the eviction of the process nor a pod with the container. */
  predicate Unrelated(s: Step, pid: nat, cid: string) {
    s != EvictCached(pid) && (s.ListPod? || s.PodApplied? ==> cid !in s.pod.containers)
  }

  lemma LoopStale(identity: string -> Place, w: World, s: Step, pid: nat, cid: string, info: PodInfo)
    requires Enabled(identity, w, s) && LoopFaithful(identity, w) && Stale(w, pid, cid, info)
    requires Unrelated(s, pid, cid) && LoopStep(s)
    ensures Stale(Next(w, s), pid, cid, info)
  {
  }

  lemma WatcherStale(identity: string -> Place, w: World, s: Step, pid: nat, cid: string, info: PodInfo)
    requires Enabled(identity, w, s) && Stale(w, pid, cid, info) && Unrelated(s, pid, cid) && !LoopStep(s)
    ensures Stale(Next(w, s), pid, cid, info)
  {
    if s.CollectStep? {
      assert pid !in Affected(w.tables, w.watcher.cids);
    }
  }

  lemma NextStale(identity: string -> Place, w: World, s: Step, pid: nat, cid: string, info: PodInfo)
    requires Enabled(identity, w, s) && LoopFaithful(identity, w) && Stale(w, pid, cid, info) && Unrelated(s, pid, cid)
    ensures Stale(Next(w, s), pid, cid, info)
  {
    if LoopStep(s) {
      LoopStale(identity, w, s, pid, cid, info);
    } else {
      WatcherStale(identity, w, s, pid, cid, info);
    }
  }

  /** A stale entry outlives every watch event, invalidation and sync: only the eviction of the process
      or a pod that lists the container again can end it. */
  lemma {:induction false} StaleStays(identity: string -> Place, worlds: seq<World>, steps: seq<Step>,
                                      j: nat, k: nat, pid: nat, cid: string, info: PodInfo)
    requires IsRun(identity, worlds, steps) && j <= k < |worlds| && Stale(worlds[j], pid, cid, info)
    requires forall v :: j <= v < k ==> Unrelated(steps[v], pid, cid)
    ensures Stale(worlds[k], pid, cid, info)
  {
    if k > j {
      StaleStays(identity, worlds, steps, j, k - 1, pid, cid, info);
      LabelsDelivered(identity, worlds, steps, k - 1);
      assert StepAt(identity, worlds, steps, k - 1);
      NextStale(identity, worlds[k - 1], steps[k - 1], pid, cid, info);
    }
  }
}
