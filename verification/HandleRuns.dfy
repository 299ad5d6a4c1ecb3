/** What every sequence of operations on the handle cache keeps: the bound on its handles, the time
    stamps of its processes, and what a collection removes and leaves (src/cache.rs). */
module HandleRuns {
  import opened Collections
  import opened HandleCache

  // ----- the global bound

  function Owners(keys: set<Key>): set<nat> {
    set k | k in keys :: k.pid
  }

  lemma {:induction false} OwnersNoMore(keys: set<Key>)
    ensures |Owners(keys)| <= |keys|
    decreases keys
  {
    if keys == {} {
      assert Owners(keys) == {};
    } else {
      var key :| key in keys;
      OwnersNoMore(keys - {key});
      assert Owners(keys) == Owners(keys - {key}) + {key.pid};
    }
  }

  lemma RemoveSplits(handles: map<Key, set<Series>>, pids: set<nat>)
    ensures var keys := KeysOf(handles, pids);
            Pids(handles) == Pids(handles - keys) + Owners(keys) && Pids(handles - keys) !! Owners(keys)
  {
  }

  lemma RemoveBound(handles: map<Key, set<Series>>, pids: set<nat>)
    ensures |handles - KeysOf(handles, pids)| - |Pids(handles - KeysOf(handles, pids))| <= |handles| - |Pids(handles)|
  {
    var keys := KeysOf(handles, pids);
    var kept := handles - keys;
    var lost := Owners(keys);
    OwnersNoMore(keys);
    RemoveSplits(handles, pids);
    SizesAdd(Pids(kept), lost);
    RemoveSize(handles, keys);
  }

  ghost predicate Bounded(cfg: Settings, c: Cache) {
    |c.handles| <= cfg.limits.maxTimeSeries + |Pids(c.handles)|
  }

  lemma InsertBound(handles: map<Key, set<Series>>, key: Key, series: set<Series>)
    requires key !in handles
    ensures |handles[key := series]| == |handles| + 1
    ensures Pids(handles[key := series]) == Pids(handles) + {key.pid}
  {
    assert handles[key := series].Keys == handles.Keys + {key};
  }

  lemma EnsureBounded(cfg: Settings, c: Cache, wanted: Key, series: set<Series>)
    requires Bounded(cfg, c)
    ensures Bounded(cfg, Ensure(cfg, c, wanted, series))
  {
    if Creates(cfg, c, wanted) {
      InsertBound(c.handles, Canonical(cfg, c, wanted), series);
    }
  }

  lemma InvalidateBounded(cfg: Settings, c: Cache, pids: set<nat>)
    requires Bounded(cfg, c)
    ensures Bounded(cfg, InvalidatePids(c, pids))
  {
    RemoveBound(c.handles, pids);
  }

  lemma GcBounded(cfg: Settings, c: Cache, now: nat, staleAfter: nat)
    requires Bounded(cfg, c)
    ensures Bounded(cfg, Gc(c, now, staleAfter))
  {
    RemoveBound(c.handles, Stale(c, now, staleAfter));
  }

  lemma ObserveBounded(cfg: Settings, c: Cache, r: Request, now: nat)
    requires Bounded(cfg, c)
    ensures Bounded(cfg, Observe(cfg, c, r, now))
  {
    EnsureBounded(cfg, c, r.key, SeriesFor(cfg, Canonical(cfg, c, r.key), r));
  }

  lemma ApplyBounded(cfg: Settings, c: Cache, op: Op)
    requires Bounded(cfg, c)
    ensures Bounded(cfg, Apply(cfg, c, op))
  {
    match op
    case Record(r, at) => ObserveBounded(cfg, c, r, at);
    case Invalidate(pids) => InvalidateBounded(cfg, c, pids);
    case Sweep(now, staleAfter) => GcBounded(cfg, c, now, staleAfter);
  }

  /** For fixed limits and every sequence of operations, the handles never exceed the cap plus one per
      process that holds a handle. */
  lemma {:induction false} CardinalityBound(cfg: Settings, ops: seq<Op>)
    ensures Bounded(cfg, Run(cfg, ops))
  {
    if ops != [] {
      CardinalityBound(cfg, ops[..|ops| - 1]);
      ApplyBounded(cfg, Run(cfg, ops[..|ops| - 1]), ops[|ops| - 1]);
    }
  }

  // ----- garbage collection

  /** Between event-loop steps every process in the cache has a time stamp, and the gauge counts them. */
  ghost predicate Tracked(c: Cache) {
    Pids(c.handles) <= c.lastSeen.Keys && c.trackedPids == |c.lastSeen|
  }

  lemma ObserveTracked(cfg: Settings, c: Cache, r: Request, now: nat)
    requires Tracked(c)
    ensures Tracked(Observe(cfg, c, r, now))
  {
    var c' := Observe(cfg, c, r, now);
    assert c'.lastSeen.Keys == c.lastSeen.Keys + {r.key.pid};
    assert Pids(c'.handles) <= Pids(c.handles) + {r.key.pid};
  }

  lemma ApplyTracked(cfg: Settings, c: Cache, op: Op)
    requires Tracked(c)
    ensures Tracked(Apply(cfg, c, op))
  {
    match op
    case Record(r, at) => ObserveTracked(cfg, c, r, at);
    case Invalidate(pids) =>
    case Sweep(now, staleAfter) =>
      var stale := Stale(c, now, staleAfter);
      if stale == {} {
        assert c.lastSeen - stale == c.lastSeen;
      }
  }

  lemma {:induction false} TrackedAlways(cfg: Settings, ops: seq<Op>)
    ensures Tracked(Run(cfg, ops))
  {
    if ops != [] {
      TrackedAlways(cfg, ops[..|ops| - 1]);
      ApplyTracked(cfg, Run(cfg, ops[..|ops| - 1]), ops[|ops| - 1]);
    }
  }

  /** The cache knows nothing about the process. */
  ghost predicate Absent(c: Cache, pid: nat) {
    pid !in c.lastSeen && pid !in c.streams && pid !in c.kernels && pid !in Pids(c.handles)
  }

  lemma GcRemoves(c: Cache, now: nat, staleAfter: nat, pid: nat)
    ensures Idle(c, pid, now, staleAfter) ==> Absent(Gc(c, now, staleAfter), pid)
  {
  }

  /** A sweep leaves nothing of a process idle longer than the limit. */
  lemma SweepRemoves(cfg: Settings, ops: seq<Op>, now: nat, staleAfter: nat, pid: nat)
    ensures Idle(Run(cfg, ops), pid, now, staleAfter) ==> Absent(Gc(Run(cfg, ops), now, staleAfter), pid)
  {
    GcRemoves(Run(cfg, ops), now, staleAfter, pid);
  }

  /** Nothing about the key, nor about its process, differs: handle, time stamp and admitted sets. */
  ghost predicate SameFor(c: Cache, c': Cache, key: Key) {
    && (key in c'.handles <==> key in c.handles)
    && (key in c.handles ==> c'.handles[key] == c.handles[key])
    && (key.pid in c'.lastSeen <==> key.pid in c.lastSeen)
    && (key.pid in c.lastSeen ==> c'.lastSeen[key.pid] == c.lastSeen[key.pid])
    && Admitted(c'.streams, key.pid) == Admitted(c.streams, key.pid)
    && Admitted(c'.kernels, key.pid) == Admitted(c.kernels, key.pid)
  }

  lemma SweptKeeps(c: Cache, gone: set<nat>, key: Key)
    requires key.pid !in gone
    ensures SameFor(c, Swept(c, gone), key)
  {
  }

  lemma GcKeeps(c: Cache, now: nat, staleAfter: nat, key: Key)
    ensures !Idle(c, key.pid, now, staleAfter) ==> SameFor(c, Gc(c, now, staleAfter), key)
  {
    if !Idle(c, key.pid, now, staleAfter) {
      SweptKeeps(c, Stale(c, now, staleAfter), key);
    }
  }

  lemma HandleTracked(c: Cache, key: Key)
    ensures Tracked(c) && key in c.handles ==> key.pid in c.lastSeen
  {
    assert key in c.handles ==> key.pid in Pids(c.handles);
  }

  /** A sweep changes nothing of any other process, which has a time stamp if it has handles. */
  lemma SweepKeeps(cfg: Settings, ops: seq<Op>, now: nat, staleAfter: nat, key: Key)
    ensures !Idle(Run(cfg, ops), key.pid, now, staleAfter) ==>
              && SameFor(Run(cfg, ops), Gc(Run(cfg, ops), now, staleAfter), key)
              && (key in Run(cfg, ops).handles ==> key.pid in Gc(Run(cfg, ops), now, staleAfter).lastSeen)
  {
    TrackedAlways(cfg, ops);
    GcKeeps(Run(cfg, ops), now, staleAfter, key);
    HandleTracked(Run(cfg, ops), key);
  }
}
