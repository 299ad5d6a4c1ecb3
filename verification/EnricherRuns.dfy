/** Two runs of the watcher and the event loop, from the start, that end badly: a pod entry that outlives
    its pod, and a promotion that is lost. One process, 7, runs in one container, "c". */
module EnricherRuns {
  import opened Collections
  import opened Enrichment
  import opened EnricherProtocol
  import opened PodLabels
  import opened Promotions

  function PodOf(info: PodInfo): Pod {
    Pod(info.namespace, info.pod, map["c" := info])
  }

  function Here(): Cgroup {
    InContainer("c")
  }

  /** Process 7 runs in the container, and the map lists it or does not. */
  function Placed(info: PodInfo, listed: bool): World {
    Start({}).(cgroups := map[7 := Here()],
               tables := Start({}).tables.(containers := if listed then map["c" := info] else map[]))
  }

  lemma StartReachable(identity: string -> Place)
    ensures Reachable(identity, Start({}))
  {
    assert IsRun(identity, [Start({})], []);
  }

  lemma ListedReachable(identity: string -> Place, info: PodInfo)
    requires PlaceOf(info) == identity("c")
    ensures Reachable(identity, Placed(info, true))
  {
    StartReachable(identity);
    Reach(identity, Start({}), Move(7, Here()), Placed(info, false));
    var swapped := Placed(info, true).(watcher := Invalidating({}, false));
    assert ContainersOf(Placed(info, false).tables, PodOf(info)) == {};
    assert map[] - {} + map["c" := info] == map["c" := info];
    Reach(identity, Placed(info, false), PodApplied(PodOf(info)), swapped);
    assert Affected(swapped.tables, {}) == {};
    Reach(identity, swapped, CollectStep, Placed(info, true));
  }

  /** The process is looked up while the pod is listed, and the pod's deletion is over before it joins. */
  lemma DeletedReachable(identity: string -> Place, info: PodInfo)
    requires PlaceOf(info) == identity("c")
    ensures Reachable(identity, Placed(info, false).(loop := Looked(7, Here(), Some(info))))
  {
    ListedReachable(identity, info);
    var looked := Placed(info, true).(loop := Looked(7, Here(), Some(info)));
    Reach(identity, Placed(info, true), LookStep(7), looked);
    var gone := Placed(info, false).(loop := Looked(7, Here(), Some(info)));
    var swapped := gone.(watcher := Invalidating({"c"}, false));
    assert ContainersOf(looked.tables, PodOf(info)) == {"c"};
    assert map["c" := info] - {"c"} == map[];
    Reach(identity, looked, PodDeleted(PodOf(info)), swapped);
    assert Affected(swapped.tables, {"c"}) == {};
    Reach(identity, swapped, CollectStep, gone);
  }

  function Filed(w: World, info: PodInfo): World {
    w.(tables := w.tables.(cache := map[7 := Some(info)], members := map["c" := {7}]), loop := Idle,
       baked := map[7 := {PlaceOf(info)}])
  }

  /** From the start: a pod is listed, one of its processes is looked up, the pod is deleted, and the
      process is filed. Its entry is stale, and nothing is in progress. */
  lemma StaleLabelRun(identity: string -> Place, info: PodInfo)
    requires PlaceOf(info) == identity("c") && !info.upgrade
    ensures var w := Filed(Placed(info, false), info);
            Reachable(identity, w) && w.loop.Idle? && w.watcher.Waiting?
            && !Coherent(identity, w, 7) && Stale(w, 7, "c", info)
  {
    DeletedReachable(identity, info);
    var w := Placed(info, false);
    var looked := w.(loop := Looked(7, Here(), Some(info)));
    var joined := w.(loop := Joined(7, Here(), Some(info)), tables := w.tables.(members := map["c" := {7}]));
    assert MembersOf(looked.tables, "c") + {7} == {7};
    Reach(identity, looked, JoinStep, joined);
    var marked := joined.(loop := Marked(7, Here(), Some(info), false));
    Reach(identity, joined, MarkStep, marked);
    assert BakedFor(marked, 7) + {PlaceOf(info)} == {PlaceOf(info)};
    Reach(identity, marked, FileStep, Filed(w, info));
  }

  /** Resolved and promoted once, with the dirty flag set. */
  function Resolved(info: PodInfo): World {
    var w := Filed(Placed(info, true), info);
    w.(tables := w.tables.(upgraded := {7}), dirty := true)
  }

  lemma ResolvedReachable(identity: string -> Place, info: PodInfo)
    requires PlaceOf(info) == identity("c") && info.upgrade
    ensures Reachable(identity, Resolved(info))
  {
    ListedReachable(identity, info);
    var w := Placed(info, true);
    var looked := w.(loop := Looked(7, Here(), Some(info)));
    Reach(identity, w, LookStep(7), looked);
    var joined := w.(loop := Joined(7, Here(), Some(info)), tables := w.tables.(members := map["c" := {7}]));
    assert MembersOf(looked.tables, "c") + {7} == {7};
    Reach(identity, looked, JoinStep, joined);
    var marked := joined.(tables := joined.tables.(upgraded := {7}), loop := Marked(7, Here(), Some(info), true));
    assert joined.tables.upgraded + {7} == {7};
    Reach(identity, joined, MarkStep, marked);
    var flagged := marked.(dirty := true, loop := Marked(7, Here(), Some(info), false));
    Reach(identity, marked, SetFlag, flagged);
    assert BakedFor(flagged, 7) + {PlaceOf(info)} == {PlaceOf(info)};
    Reach(identity, flagged, FileStep, Resolved(info));
  }

  /** The pod is applied again and the invalidation has dropped the process from the cache, not yet from
      the promoted set. */
  function HalfDropped(info: PodInfo): World {
    var w := Resolved(info);
    w.(tables := w.tables.(cache := map[]), owed := {7}, watcher := CacheDropped({7}, false))
  }

  lemma SwappedAgain(info: PodInfo)
    ensures ApplyPod(Resolved(info).tables, PodOf(info)) == (Resolved(info).tables, {"c"})
    ensures Affected(Resolved(info).tables, {"c"}) == {7}
  {
    var t := Resolved(info).tables;
    assert ContainersOf(t, PodOf(info)) == {"c"};
    assert t.containers - {"c"} + map["c" := info] == t.containers;
    assert 7 in Affected(t, {"c"});
  }

  lemma CollectedReachable(identity: string -> Place, info: PodInfo)
    requires PlaceOf(info) == identity("c") && info.upgrade
    ensures Reachable(identity, Resolved(info).(watcher := Collected({7}, false)))
  {
    ResolvedReachable(identity, info);
    var w := Resolved(info);
    SwappedAgain(info);
    var swapped := w.(watcher := Invalidating({"c"}, false));
    Reach(identity, w, PodApplied(PodOf(info)), swapped);
    Reach(identity, swapped, CollectStep, w.(watcher := Collected({7}, false)));
  }

  lemma HalfDroppedReachable(identity: string -> Place, info: PodInfo)
    requires PlaceOf(info) == identity("c") && info.upgrade
    ensures Reachable(identity, HalfDropped(info))
  {
    CollectedReachable(identity, info);
    var w := Resolved(info);
    var collected := w.(watcher := Collected({7}, false));
    assert w.tables.cache - {7} == map[];
    assert {} + (set pid | pid in w.tables.cache && w.tables.cache[pid].Some? && pid in {7}) == {7};
    Reach(identity, collected, DropCachedStep, HalfDropped(info));
  }

  /** The event loop resolves the process inside that window: it is still promoted, so no flag is raised,
      and it is cached with the annotation. */
  function Refiled(info: PodInfo): World {
    var w := HalfDropped(info);
    w.(tables := w.tables.(cache := map[7 := Some(info)]))
  }

  lemma RefiledReachable(identity: string -> Place, info: PodInfo)
    requires PlaceOf(info) == identity("c") && info.upgrade
    ensures Reachable(identity, Refiled(info))
  {
    HalfDroppedReachable(identity, info);
    var w := HalfDropped(info);
    var looked := w.(loop := Looked(7, Here(), Some(info)));
    Reach(identity, w, LookStep(7), looked);
    var joined := w.(loop := Joined(7, Here(), Some(info)));
    assert MembersOf(looked.tables, "c") + {7} == {7};
    assert w.tables.members["c" := {7}] == w.tables.members;
    Reach(identity, looked, JoinStep, joined);
    var marked := w.(loop := Marked(7, Here(), Some(info), false));
    assert w.tables.upgraded + {7} == w.tables.upgraded;
    Reach(identity, joined, MarkStep, marked);
    assert BakedFor(marked, 7) + {PlaceOf(info)} == {PlaceOf(info)};
    assert w.baked[7 := {PlaceOf(info)}] == w.baked;
    Reach(identity, marked, FileStep, Refiled(info));
  }

  /** The second drop takes the promotion away; the flag has been set again. */
  function Flagless(info: PodInfo): World {
    var w := Refiled(info);
    w.(tables := w.tables.(upgraded := {}), watcher := PromotedDropped({7}, false, false))
  }

  /** The invalidation is over. */
  function Unpromoted(info: PodInfo): World {
    var w := Refiled(info);
    w.(tables := w.tables.(upgraded := {}, changed := {7}, hasChanges := true), watcher := Waiting)
  }

  lemma SweptReachable(identity: string -> Place, info: PodInfo)
    requires PlaceOf(info) == identity("c") && info.upgrade
    ensures Reachable(identity, Flagless(info))
  {
    RefiledReachable(identity, info);
    var w := Refiled(info);
    var swept := Flagless(info).(watcher := PromotedDropped({7}, true, false));
    assert w.tables.upgraded - {7} == {} && 7 in w.tables.upgraded;
    Reach(identity, w, DropPromotedStep, swept);
    Reach(identity, swept, SetFlagWatcher, Flagless(info));
  }

  lemma UnpromotedReachable(identity: string -> Place, info: PodInfo)
    requires PlaceOf(info) == identity("c") && info.upgrade
    ensures Reachable(identity, Unpromoted(info))
  {
    SweptReachable(identity, info);
    assert Flagless(info).tables.changed + {7} == {7};
    Reach(identity, Flagless(info), QueueStep, Unpromoted(info));
  }

  /** From the start: the process ends cached with the annotation and not promoted, with nothing in
      progress. Until it is evicted or invalidated, later resolves answer from the cache. */
  lemma LostPromotionRun(identity: string -> Place, info: PodInfo)
    requires PlaceOf(info) == identity("c") && info.upgrade
    ensures var w := Unpromoted(info);
            Reachable(identity, w) && w.loop.Idle? && w.watcher.Waiting? && Calm(w)
            && CachedPromoted(w, 7) && 7 !in w.tables.upgraded && !UpgradedIsCached(w)
  {
    UnpromotedReachable(identity, info);
    assert CachedPromoted(Unpromoted(info), 7);
  }
}
