/** Promotions over every interleaving of the watcher and the event loop: no change of the promoted set is
    lost to the sync, the kernel map follows the set last read, and the promoted set is the set of
    processes cached with the annotation exactly when no invalidation swept a promotion it did not drop. */
module Promotions {
  import opened Enrichment
  import opened PromotionSync
  import opened EnricherProtocol
  import opened PodLabels

  // ----- the sync

  /** The sync knows the promoted set, or will look again: the flag is set, a writer is about to set it,
      or a sync has cleared it and not read yet. */
  ghost predicate NoLostUpdate(w: World) {
    w.lastRead != w.tables.upgraded ==>
      || w.dirty || w.loop.Evicted? || (w.loop.Marked? && w.loop.flag) || w.loop.Swapped?
      || (w.watcher.PromotedDropped? && w.watcher.flag)
  }

  ghost predicate KernelFollows(w: World) {
    && w.kernel <= Believed(w.kernel, w.synced) && |w.kernel| <= CAPACITY
    && (!w.loop.Read? ==> w.synced == w.lastRead)
    && (w.loop.Read? && !w.overflowed ==> |w.lastRead| <= CAPACITY)
    && (w.done ==> w.kernel <= w.synced && (!w.overflowed ==> w.kernel == w.synced))
    && (!w.done ==> w.synced == {})
  }

  lemma NextNoLostUpdate(identity: string -> Place, w: World, s: Step)
    requires Enabled(identity, w, s) && NoLostUpdate(w)
    ensures NoLostUpdate(Next(w, s))
  {
  }

  lemma NextKernel(identity: string -> Place, w: World, s: Step)
    requires Enabled(identity, w, s) && KernelFollows(w)
    ensures KernelFollows(Next(w, s))
  {
    if s.WriteKernel? {
      SyncExactIff(w.kernel, Believed(w.kernel, w.synced), w.lastRead, s.written);
    }
  }

  /** In every reachable state of every interleaving no change of the promoted set is lost to the sync,
      and after a sync the kernel map is part of the set it read, all of it unless some set to be synced
      exceeded the map. */
  lemma {:induction false} PromotionsSynced(identity: string -> Place, worlds: seq<World>, steps: seq<Step>, k: nat)
    requires IsRun(identity, worlds, steps) && k < |worlds|
    ensures NoLostUpdate(worlds[k]) && KernelFollows(worlds[k])
  {
    if k > 0 {
      PromotionsSynced(identity, worlds, steps, k - 1);
      assert StepAt(identity, worlds, steps, k - 1);
      NextNoLostUpdate(identity, worlds[k - 1], steps[k - 1]);
      NextKernel(identity, worlds[k - 1], steps[k - 1]);
    }
  }

  // ----- the promoted set and the cache

  predicate CachedPromoted(w: World, pid: nat) {
    pid in w.tables.cache && Promoted(w.tables.cache[pid])
  }

  /** `upgraded_pids` is the set of processes cached with the annotation. */
  ghost predicate UpgradedIsCached(w: World) {
    forall pid :: pid in w.tables.upgraded <==> CachedPromoted(w, pid)
  }

  /** The step drops the process from the promoted set on behalf of an invalidation. */
  predicate Sweeps(w: World, s: Step, pid: nat) {
    s.DropPromotedStep? && w.watcher.CacheDropped? && pid in w.watcher.affected
  }

  lemma StepPromotes(identity: string -> Place, w: World, s: Step, pid: nat)
    requires Enabled(identity, w, s)
    ensures pid in Next(w, s).tables.upgraded <==>
            || (s.MarkStep? && w.loop.pid == pid && Promoted(w.loop.found))
            || (pid in w.tables.upgraded && !Sweeps(w, s, pid) && !(s.EvictPromoted? && w.loop.pid == pid))
  {
  }

  /** A promoted process is cached so, or is being filed, evicted, or swept. */
  ghost predicate NoGhosts(w: World) {
    forall pid :: pid in w.tables.upgraded ==>
      || CachedPromoted(w, pid)
      || (w.loop.Marked? && w.loop.pid == pid && Promoted(w.loop.found))
      || (w.loop.Evicting? && w.loop.pid == pid)
      || (w.watcher.CacheDropped? && pid in w.watcher.affected)
  }

  lemma NextNoGhosts(identity: string -> Place, w: World, s: Step)
    requires Enabled(identity, w, s) && NoGhosts(w) && LoopFaithful(identity, w)
    ensures NoGhosts(Next(w, s))
  {
  }

  lemma {:induction false} RunNoGhosts(identity: string -> Place, worlds: seq<World>, steps: seq<Step>, k: nat)
    requires IsRun(identity, worlds, steps) && k < |worlds|
    ensures NoGhosts(worlds[k])
  {
    if k > 0 {
      RunNoGhosts(identity, worlds, steps, k - 1);
      LabelsDelivered(identity, worlds, steps, k - 1);
      assert StepAt(identity, worlds, steps, k - 1);
      NextNoGhosts(identity, worlds[k - 1], steps[k - 1]);
    }
  }

  // ----- the window of a promotion

  ghost predicate MarkedFor(w: World, pid: nat) {
    w.loop.Marked? && w.loop.pid == pid && Promoted(w.loop.found)
  }

  /** The process was marked at step `p` and filed at step `f`, and that entry still stands in state `k`. */
  ghost predicate Filing(worlds: seq<World>, steps: seq<Step>, p: nat, f: nat, k: nat, pid: nat)
    requires k < |worlds| == |steps| + 1
  {
    && p < f < k && steps[p].MarkStep? && steps[f].FileStep?
    && (forall v :: p < v <= f ==> MarkedFor(worlds[v], pid))
    && (forall v :: f < v <= k ==> pid in worlds[v].tables.cache)
  }

  /** An invalidation swept the promotion of a standing entry: it dropped the promoted set after the
      process was marked, and had dropped the cache before the process was filed. */
  ghost predicate Lost(worlds: seq<World>, steps: seq<Step>, k: nat, pid: nat)
    requires k < |worlds| == |steps| + 1
  {
    exists p: nat, f: nat, d: nat ::
      Filing(worlds, steps, p, f, k, pid) && p < d < k && Sweeps(worlds[d], steps[d], pid)
  }

  lemma {:induction false} MarkedSince(identity: string -> Place, worlds: seq<World>, steps: seq<Step>, f: nat,
                                       pid: nat) returns (p: nat)
    requires IsRun(identity, worlds, steps) && f < |worlds| && MarkedFor(worlds[f], pid)
    ensures p < f && steps[p].MarkStep? && forall v :: p < v <= f ==> MarkedFor(worlds[v], pid)
  {
    assert StepAt(identity, worlds, steps, f - 1);
    if steps[f - 1].MarkStep? {
      p := f - 1;
    } else {
      p := MarkedSince(identity, worlds, steps, f - 1, pid);
    }
  }

  lemma CachedStep(identity: string -> Place, w: World, s: Step, pid: nat)
    requires Enabled(identity, w, s) && CachedPromoted(Next(w, s), pid)
    ensures CachedPromoted(w, pid) || (s.FileStep? && MarkedFor(w, pid))
  {
  }

  /** Every entry cached with the annotation was marked and filed. */
  lemma {:induction false} FiledSince(identity: string -> Place, worlds: seq<World>, steps: seq<Step>, k: nat,
                                      pid: nat) returns (p: nat, f: nat)
    requires IsRun(identity, worlds, steps) && k < |worlds| && CachedPromoted(worlds[k], pid)
    ensures Filing(worlds, steps, p, f, k, pid)
  {
    assert StepAt(identity, worlds, steps, k - 1);
    CachedStep(identity, worlds[k - 1], steps[k - 1], pid);
    if CachedPromoted(worlds[k - 1], pid) {
      p, f := FiledSince(identity, worlds, steps, k - 1, pid);
    } else {
      f := k - 1;
      p := MarkedSince(identity, worlds, steps, f, pid);
    }
  }

  /** While the entry is filed and stands, the loop neither marks nor evicts the process again. */
  lemma Undisturbed(identity: string -> Place, worlds: seq<World>, steps: seq<Step>, p: nat, f: nat, k: nat, pid: nat,
                    v: nat)
    requires IsRun(identity, worlds, steps) && k < |worlds| && Filing(worlds, steps, p, f, k, pid) && p < v < k
    ensures pid in worlds[v + 1].tables.upgraded <==>
              pid in worlds[v].tables.upgraded && !Sweeps(worlds[v], steps[v], pid)
  {
    LabelsDelivered(identity, worlds, steps, v);
    assert StepAt(identity, worlds, steps, v);
    StepPromotes(identity, worlds[v], steps[v], pid);
    if v <= f {
      assert MarkedFor(worlds[v], pid);
    } else {
      assert pid in worlds[v].tables.cache;
    }
  }

  lemma {:induction false} PromotedUnlessSwept(identity: string -> Place, worlds: seq<World>, steps: seq<Step>,
                                               p: nat, f: nat, k: nat, pid: nat, v: nat)
    requires IsRun(identity, worlds, steps) && k < |worlds| && Filing(worlds, steps, p, f, k, pid) && p < v <= k
    ensures pid in worlds[v].tables.upgraded <==> forall d :: p < d < v ==> !Sweeps(worlds[d], steps[d], pid)
  {
    if v == p + 1 {
      assert StepAt(identity, worlds, steps, p);
      assert MarkedFor(worlds[v], pid);
      StepPromotes(identity, worlds[p], steps[p], pid);
    } else {
      PromotedUnlessSwept(identity, worlds, steps, p, f, k, pid, v - 1);
      Undisturbed(identity, worlds, steps, p, f, k, pid, v - 1);
    }
  }

  /** Two filings that both stand are the same one. */
  lemma FilingUnique(identity: string -> Place, worlds: seq<World>, steps: seq<Step>, p: nat, f: nat, q: nat, g: nat,
                     k: nat, pid: nat)
    requires IsRun(identity, worlds, steps) && k < |worlds|
    requires Filing(worlds, steps, p, f, k, pid) && Filing(worlds, steps, q, g, k, pid)
    ensures p == q && f == g
  {
    LabelsDelivered(identity, worlds, steps, f);
    LabelsDelivered(identity, worlds, steps, g);
    assert MarkedFor(worlds[f], pid) && MarkedFor(worlds[g], pid);
    assert f == g;
    assert StepAt(identity, worlds, steps, p) && StepAt(identity, worlds, steps, q);
    assert worlds[p].loop.Joined? && worlds[q].loop.Joined?;
    assert !MarkedFor(worlds[p], pid) && !MarkedFor(worlds[q], pid);
  }

  /** Main theorem: in every state of every interleaving, a process cached with the annotation is missing
      from the promoted set exactly when an invalidation swept the promotion of its standing entry. */
  lemma PromotionLostIff(identity: string -> Place, worlds: seq<World>, steps: seq<Step>, k: nat, pid: nat)
    requires IsRun(identity, worlds, steps) && k < |worlds|
    ensures CachedPromoted(worlds[k], pid) ==> (pid !in worlds[k].tables.upgraded <==> Lost(worlds, steps, k, pid))
  {
    if CachedPromoted(worlds[k], pid) {
      var p, f := FiledSince(identity, worlds, steps, k, pid);
      PromotedUnlessSwept(identity, worlds, steps, p, f, k, pid, k);
      if Lost(worlds, steps, k, pid) {
        var q: nat, g: nat, d: nat :|
          Filing(worlds, steps, q, g, k, pid) && q < d < k && Sweeps(worlds[d], steps[d], pid);
        FilingUnique(identity, worlds, steps, p, f, q, g, k, pid);
      }
    }
  }

  lemma StillCached(identity: string -> Place, w: World, s: Step, pid: nat)
    requires Enabled(identity, w, s) && LoopFaithful(identity, w) && CachedPromoted(w, pid)
    ensures pid in Next(w, s).tables.cache ==> CachedPromoted(Next(w, s), pid)
  {
  }

  lemma {:induction false} FilingCached(identity: string -> Place, worlds: seq<World>, steps: seq<Step>, p: nat,
                                        f: nat, k: nat, pid: nat, v: nat)
    requires IsRun(identity, worlds, steps) && k < |worlds| && Filing(worlds, steps, p, f, k, pid) && f < v <= k
    ensures CachedPromoted(worlds[v], pid)
  {
    assert StepAt(identity, worlds, steps, v - 1);
    if v == f + 1 {
      assert MarkedFor(worlds[f], pid);
    } else {
      FilingCached(identity, worlds, steps, p, f, k, pid, v - 1);
      LabelsDelivered(identity, worlds, steps, v - 1);
      StillCached(identity, worlds[v - 1], steps[v - 1], pid);
    }
  }

  /** Nothing is being filed, evicted or swept. */
  predicate Calm(w: World) {
    !w.loop.Marked? && !w.loop.Evicting? && !w.watcher.CacheDropped?
  }

  /** In calm states the promoted set is the set of processes cached with the annotation exactly when no
      promotion was lost. */
  lemma UpgradedIsCachedIff(identity: string -> Place, worlds: seq<World>, steps: seq<Step>, k: nat)
    requires IsRun(identity, worlds, steps) && k < |worlds| && Calm(worlds[k])
    ensures UpgradedIsCached(worlds[k]) <==> forall pid: nat :: !Lost(worlds, steps, k, pid)
  {
    RunNoGhosts(identity, worlds, steps, k);
    forall pid: nat
      ensures Lost(worlds, steps, k, pid) <==> CachedPromoted(worlds[k], pid) && pid !in worlds[k].tables.upgraded
    {
      PromotionLostIff(identity, worlds, steps, k, pid);
      if Lost(worlds, steps, k, pid) {
        var p: nat, f: nat, d: nat :|
          Filing(worlds, steps, p, f, k, pid) && p < d < k && Sweeps(worlds[d], steps[d], pid);
        FilingCached(identity, worlds, steps, p, f, k, pid, k);
      }
    }
  }

  // ----- when nothing is lost

  /** A sweep that comes after the filing belongs to an invalidation that had dropped the cache before it. */
  lemma {:induction false} SweepSpans(identity: string -> Place, worlds: seq<World>, steps: seq<Step>,
                                      p: nat, f: nat, k: nat, pid: nat, v: nat)
    requires IsRun(identity, worlds, steps) && k < |worlds| && Filing(worlds, steps, p, f, k, pid) && f < v < k
    requires worlds[v].watcher.CacheDropped? && pid in worlds[v].watcher.affected
    ensures worlds[f].watcher.CacheDropped?
  {
    assert StepAt(identity, worlds, steps, v - 1);
    assert pid in worlds[v].tables.cache;
    if v > f + 1 {
      SweepSpans(identity, worlds, steps, p, f, k, pid, v - 1);
    }
  }

  /** No process is filed between the two drops of an invalidation, and no second drop falls between
      marking and filing. */
  ghost predicate Separate(worlds: seq<World>, steps: seq<Step>) {
    |worlds| == |steps| + 1 && forall c :: 0 <= c < |steps| ==>
      && (steps[c].FileStep? ==> !worlds[c].watcher.CacheDropped?)
      && (steps[c].DropPromotedStep? ==> !worlds[c].loop.Marked?)
  }

  lemma SeparateLosesNothing(identity: string -> Place, worlds: seq<World>, steps: seq<Step>, k: nat, pid: nat)
    requires IsRun(identity, worlds, steps) && Separate(worlds, steps) && k < |worlds|
    ensures !Lost(worlds, steps, k, pid)
  {
    forall p: nat, f: nat, d: nat | Filing(worlds, steps, p, f, k, pid) && p < d < k
      ensures !Sweeps(worlds[d], steps[d], pid)
    {
      if d <= f {
        assert MarkedFor(worlds[d], pid);
      } else if worlds[d].watcher.CacheDropped? && pid in worlds[d].watcher.affected {
        SweepSpans(identity, worlds, steps, p, f, k, pid, d);
      }
    }
  }

  /** When nothing is in progress and the flag is clear, the kernel traces in full exactly the processes
      cached with the annotation, if and only if no promotion was lost. */
  lemma QuietMeansSyncedIff(identity: string -> Place, worlds: seq<World>, steps: seq<Step>, k: nat)
    requires IsRun(identity, worlds, steps) && k < |worlds|
    requires worlds[k].loop.Idle? && worlds[k].watcher.Waiting? && !worlds[k].dirty
    requires worlds[k].done && !worlds[k].overflowed
    ensures (forall pid :: pid in worlds[k].kernel <==> CachedPromoted(worlds[k], pid))
            <==> forall pid: nat :: !Lost(worlds, steps, k, pid)
  {
    PromotionsSynced(identity, worlds, steps, k);
    UpgradedIsCachedIff(identity, worlds, steps, k);
    assert worlds[k].kernel == worlds[k].tables.upgraded;
  }
}
