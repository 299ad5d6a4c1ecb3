/** The enricher's shared tables: which pod a process belongs to, cached per process, and the
    operations of the event loop and of the Kubernetes watcher on them. */
module Enrichment {
  import opened Collections

  datatype PodInfo = PodInfo(namespace: string, pod: string, container: string, upgrade: bool)

  /** The labels a pod gives its metrics; the annotation bit is not one of them. */
  datatype Place = Place(namespace: string, pod: string, container: string)

  function PlaceOf(info: PodInfo): Place {
    Place(info.namespace, info.pod, info.container)
  }

  /** `cache`: k8s_pid_cache. `containers`: container_map. `members`: container_to_pids. `upgraded`,
      `changed` and `hasChanges` as named in the source. */
  datatype Tables = Tables(
    cache: map<nat, Option<PodInfo>>,
    containers: map<string, PodInfo>,
    members: map<string, set<nat>>,
    upgraded: set<nat>,
    changed: set<nat>,
    hasChanges: bool)

  /** What the cgroup file of a process says: unreadable, no container, or a container id. */
  datatype Cgroup = Unreadable | NoContainer | InContainer(id: string)

  function MembersOf(t: Tables, cid: string): set<nat> {
    if cid in t.members then t.members[cid] else {}
  }

  function Lookup(t: Tables, cgroup: Cgroup): Option<PodInfo> {
    if cgroup.InContainer? && cgroup.id in t.containers then Some(t.containers[cgroup.id]) else None
  }

  predicate Promoted(entry: Option<PodInfo>) {
    entry.Some? && entry.value.upgrade
  }

  /** The steps of resolving after the look-up, each under its own lock: the process joins the
      container's members, is marked as promoted, and the result is filed. */
  function Join(t: Tables, pid: nat, cgroup: Cgroup): Tables {
    t.(members := if cgroup.InContainer? then t.members[cgroup.id := MembersOf(t, cgroup.id) + {pid}] else t.members)
  }

  function Mark(t: Tables, pid: nat, found: Option<PodInfo>): Tables {
    t.(upgraded := if Promoted(found) then t.upgraded + {pid} else t.upgraded)
  }

  function File(t: Tables, pid: nat, found: Option<PodInfo>): Tables {
    t.(cache := t.cache[pid := found])
  }

  /** `resolve_k8s`: answers from the cache; an unreadable cgroup is not remembered. */
  function Resolve(t: Tables, pid: nat, cgroup: Cgroup): (Tables, Option<PodInfo>) {
    if pid in t.cache then (t, t.cache[pid])
    else if cgroup.Unreadable? then (t, None)
    else
      var found := Lookup(t, cgroup);
      (File(Mark(Join(t, pid, cgroup), pid, found), pid, found), found)
  }

  function Evict(t: Tables, pid: nat): Tables {
    t.(cache := t.cache - {pid}, upgraded := t.upgraded - {pid})
  }

  /** The processes ever seen in one of the containers. */
  function Affected(t: Tables, cids: set<string>): set<nat> {
    set cid, pid | cid in cids && cid in t.members && pid in t.members[cid] :: pid
  }

  /** The steps of an invalidation, each under its own lock. */
  function DropCached(t: Tables, affected: set<nat>): Tables {
    t.(cache := t.cache - affected)
  }

  function DropPromoted(t: Tables, affected: set<nat>): Tables {
    t.(upgraded := t.upgraded - affected)
  }

  function Queue(t: Tables, affected: set<nat>): Tables {
    t.(changed := t.changed + affected, hasChanges := true)
  }

  function InvalidateContainers(t: Tables, cids: set<string>): Tables {
    var affected := Affected(t, cids);
    if affected == {} then t else Queue(DropPromoted(DropCached(t, affected), affected), affected)
  }

  /** After a relist, processes that had no pod may have one now. */
  function RetainPositive(t: Tables): Tables {
    t.(cache := map pid | pid in t.cache && t.cache[pid].Some? :: t.cache[pid])
  }

  /** The event loop takes the changed processes, if the flag says there are any. */
  function TakeChanged(t: Tables): (Tables, set<nat>) {
    if t.hasChanges && t.changed != {} then (t.(changed := {}, hasChanges := false), t.changed) else (t, {})
  }

  /** A pod as the watcher reports it, with its containers. */
  datatype Pod = Pod(namespace: string, name: string, containers: map<string, PodInfo>)

  function ContainersOf(t: Tables, p: Pod): set<string> {
    set cid | cid in t.containers && t.containers[cid].pod == p.name && t.containers[cid].namespace == p.namespace
  }

  /** The first half of each watch event: the map is swapped, and these containers are to be invalidated. */
  function ApplyPod(t: Tables, p: Pod): (Tables, set<string>) {
    (t.(containers := (t.containers - ContainersOf(t, p)) + p.containers), ContainersOf(t, p))
  }

  function DeletePod(t: Tables, p: Pod): (Tables, set<string>) {
    (t.(containers := t.containers - ContainersOf(t, p)), ContainersOf(t, p))
  }

  function FinishRelist(t: Tables, listed: map<string, PodInfo>): (Tables, set<string>) {
    (t.(containers := listed), t.containers.Keys - listed.Keys)
  }

  /** The containers reported for a pod name it. */
  ghost predicate Names(p: Pod) {
    forall cid :: cid in p.containers ==> p.containers[cid].pod == p.name && p.containers[cid].namespace == p.namespace
  }

  /** After an apply the map lists for the pod exactly the containers reported, and for other pods what
      it listed before. */
  lemma ApplyReplaces(t: Tables, p: Pod)
    ensures Names(p) && p.containers.Keys !! (t.containers.Keys - ContainersOf(t, p)) ==>
              ContainersOf(ApplyPod(t, p).0, p) == p.containers.Keys
    ensures forall cid :: cid in p.containers ==>
              cid in ApplyPod(t, p).0.containers && ApplyPod(t, p).0.containers[cid] == p.containers[cid]
    ensures forall cid :: cid !in ContainersOf(t, p) && cid !in p.containers ==>
              (cid in ApplyPod(t, p).0.containers <==> cid in t.containers)
              && (cid in t.containers ==> ApplyPod(t, p).0.containers[cid] == t.containers[cid])
  {
  }

  // ----- the enricher as code

  class Enricher {
    var cache: map<nat, Option<PodInfo>>
    var containers: map<string, PodInfo>
    var members: map<string, set<nat>>
    var upgraded: set<nat>
    var upgradeDirty: bool
    var changed: set<nat>
    var hasChanges: bool

    ghost function State(): Tables
      reads this
    {
      Tables(cache, containers, members, upgraded, changed, hasChanges)
    }

    constructor ()
      ensures State() == Tables(map[], map[], map[], {}, {}, false) && !upgradeDirty
    {
      cache, containers, members, upgraded := map[], map[], map[], {};
      upgradeDirty, changed, hasChanges := false, {}, false;
    }

    method ResolveK8s(pid: nat, cgroup: Cgroup) returns (r: Option<PodInfo>)
      modifies this
      ensures (State(), r) == Resolve(old(State()), pid, cgroup)
      ensures upgradeDirty == (old(upgradeDirty) || upgraded != old(upgraded))
    {
      if pid in cache {
        return cache[pid];
      }
      if cgroup.Unreadable? {
        return None;
      }
      r := None;
      if cgroup.InContainer? {
        if cgroup.id in containers {
          r := Some(containers[cgroup.id]);
        }
        var mine := if cgroup.id in members then members[cgroup.id] else {};
        members := members[cgroup.id := mine + {pid}];
      }
      if r.Some? && r.value.upgrade {
        if pid !in upgraded {
          upgraded := upgraded + {pid};
          upgradeDirty := true;
        } else {
          assert upgraded == upgraded + {pid};
        }
      }
      cache := cache[pid := r];
    }

    method EvictPid(pid: nat)
      modifies this
      ensures State() == Evict(old(State()), pid)
      ensures upgradeDirty == (old(upgradeDirty) || upgraded != old(upgraded))
    {
      cache := cache - {pid};
      if pid in upgraded {
        upgraded := upgraded - {pid};
        upgradeDirty := true;
      } else {
        assert upgraded == upgraded - {pid};
      }
    }

    /** The affected processes, collected container by container. */
    method Collect(cids: set<string>) returns (affected: set<nat>)
      ensures affected == Affected(State(), cids)
    {
      ghost var done := {};
      var todo := cids;
      affected := {};
      while todo != {}
        invariant todo + done == cids && affected == Affected(State(), done)
      {
        var cid :| cid in todo;
        AffectedMore(State(), done, cid);
        if cid in members {
          affected := affected + members[cid];
        }
        todo, done := todo - {cid}, done + {cid};
      }
      assert done == cids;
    }

    method DropUpgraded(affected: set<nat>)
      modifies this`upgraded, this`upgradeDirty
      ensures upgraded == old(upgraded) - affected
      ensures upgradeDirty == (old(upgradeDirty) || upgraded != old(upgraded))
    {
      var before := |upgraded|;
      SubsetSize(upgraded - affected, upgraded);
      upgraded := upgraded - affected;
      if |upgraded| != before {
        upgradeDirty := true;
      }
    }

    method Invalidate(cids: set<string>)
      modifies this
      ensures State() == InvalidateContainers(old(State()), cids)
      ensures upgradeDirty == (old(upgradeDirty) || upgraded != old(upgraded))
    {
      var affected := Collect(cids);
      if affected != {} {
        cache := cache - affected;
        DropUpgraded(affected);
        changed := changed + affected;
        hasChanges := true;
      }
    }

    method DropNegative()
      modifies this`cache
      ensures State() == RetainPositive(old(State()))
    {
      cache := map pid | pid in cache && cache[pid].Some? :: cache[pid];
    }

    method Take() returns (pids: set<nat>)
      modifies this`changed, this`hasChanges
      ensures (State(), pids) == TakeChanged(old(State()))
    {
      pids := {};
      if hasChanges {
        if changed != {} {
          pids, changed := changed, {};
          hasChanges := false;
        }
      }
    }

    /** `Event::Apply` up to the invalidation: the map lists exactly the reported containers for the pod,
        provided they name it and belong to no other pod, and nothing changes for other pods. */
    method SwapApply(p: Pod) returns (cids: set<string>)
      modifies this`containers
      ensures (State(), cids) == ApplyPod(old(State()), p)
      ensures Names(p) && p.containers.Keys !! (old(containers).Keys - cids) ==>
                ContainersOf(State(), p) == p.containers.Keys
      ensures forall cid :: cid !in cids && cid !in p.containers ==>
                (cid in containers <==> cid in old(containers))
                && (cid in containers ==> containers[cid] == old(containers)[cid])
    {
      ApplyReplaces(State(), p);
      cids := set cid | cid in containers && containers[cid].pod == p.name && containers[cid].namespace == p.namespace;
      containers := (containers - cids) + p.containers;
    }

    /** `Event::Delete` up to the invalidation. */
    method SwapDelete(p: Pod) returns (cids: set<string>)
      modifies this`containers
      ensures (State(), cids) == DeletePod(old(State()), p)
    {
      cids := set cid | cid in containers && containers[cid].pod == p.name && containers[cid].namespace == p.namespace;
      if cids != {} {
        containers := containers - cids;
      } else {
        assert containers - cids == containers;
      }
    }

    /** `Event::InitDone` up to the invalidation. */
    method SwapRelist(listed: map<string, PodInfo>) returns (cids: set<string>)
      modifies this`containers
      ensures (State(), cids) == FinishRelist(old(State()), listed)
    {
      var before := containers;
      containers := listed;
      cids := set cid | cid in before && cid !in listed;
      assert cids == before.Keys - listed.Keys;
    }
  }

  lemma AffectedMore(t: Tables, cids: set<string>, cid: string)
    ensures Affected(t, cids + {cid}) == Affected(t, cids) + MembersOf(t, cid)
  {
  }

}
