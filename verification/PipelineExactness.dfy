/** The histogram theorem for the three aggregate maps inside every run of the pipeline. */
module PipelineExactness {
  import opened Sums
  import opened Events
  import opened PerCpuTable
  import opened Histograms
  import opened Probes
  import opened Pipeline

  /** Fewer than 2^32 weighted hits on the key and CPU since its row was made. */
  ghost predicate Roomy<K(!new)>(shape: Shape, t: Table<K>, acts: seq<Action<K>>) {
    acts != [] ==> Enabled(shape, t, acts[0]) && Fits(shape, t, acts[0])
  }

  ghost predicate TableExact<K(!new)>(shape: Shape, t: Table<K>, bounds: seq<nat>, rate: nat, i: nat,
                                      select: K -> bool) {
    Sound(shape, t, i, select) && MeasuredLog(bounds, rate, t.past)
  }

  lemma FollowExact<K(!new)>(shape: Shape, t: Table<K>, t': Table<K>, acts: seq<Action<K>>,
                             bounds: seq<nat>, rate: nat, i: nat, select: K -> bool)
    requires Follows(shape, t, t', acts) && Roomy(shape, t, acts)
    requires acts != [] && acts[0].Record? ==> Measured(bounds, rate, acts[0].hit)
    requires TableExact(shape, t, bounds, rate, i, select)
    ensures TableExact(shape, t', bounds, rate, i, select)
  {
    if acts != [] {
      StepSound(shape, t, acts[0], i, select);
      StepMeasured(shape, t, acts[0], bounds, rate);
    }
  }

  lemma EmptyExact<K(!new)>(shape: Shape, bounds: seq<nat>, rate: nat, i: nat, select: K -> bool)
    ensures TableExact(shape, Empty<K>(), bounds, rate, i, select)
  {
    EmptySound<K>(shape, i, select);
  }

  /** Published + resident + raced + refused = `rate` times the calls within the bound, both for the
      `le` series at position `i` and, past the table, for the count; and from the `+Inf` position on
      the published `le` series is the published count. */
  ghost predicate Accounted<K(!new)>(t: Table<K>, bounds: seq<nat>, rate: nat, i: nat, select: K -> bool) {
    && Published(Le(i, select), t) + Resident(Le(i, select), t) + Raced(Le(i, select), t)
       + rate * AtMost(bounds, i, select, t.past.rejected) == rate * AtMost(bounds, i, select, t.past.log)
    && Published(Count(select), t) + Resident(Count(select), t) + Raced(Count(select), t)
       + rate * AtMost(bounds, |bounds|, select, t.past.rejected) == rate * AtMost(bounds, |bounds|, select, t.past.log)
    && (i >= |bounds| ==> Published(Le(i, select), t) == Published(Count(select), t))
  }

  lemma ExactAccounted<K(!new)>(shape: Shape, t: Table<K>, bounds: seq<nat>, rate: nat, i: nat, select: K -> bool)
    requires Increasing(bounds) && shape.buckets == |bounds| + 1 && TableExact(shape, t, bounds, rate, i, select)
    ensures Accounted(t, bounds, rate, i, select)
  {
    LeCountsDurations(bounds, rate, i, select, t.past.log);
    LeCountsDurations(bounds, rate, i, select, t.past.rejected);
    CountCountsCalls(bounds, rate, select, t.past.log);
    CountCountsCalls(bounds, rate, select, t.past.rejected);
    if i >= |bounds| {
      InfIsCount(shape, t, i, select);
    }
  }

  ghost predicate AggRoomy(cfg: Config, states: seq<System>, events: seq<Event>)
    requires IsRun(cfg, states, events)
  {
    forall j :: 0 <= j < |events| ==> Roomy(AggShape(cfg), AggTable(states[j]), AggActions(cfg, states[j], events[j]))
  }

  ghost predicate NcclRoomy(cfg: Config, states: seq<System>, events: seq<Event>)
    requires IsRun(cfg, states, events)
  {
    forall j :: 0 <= j < |events| ==>
      Roomy(NcclShape(cfg), NcclTable(states[j]), NcclActions(cfg, states[j], events[j]))
  }

  ghost predicate LaunchRoomy(cfg: Config, states: seq<System>, events: seq<Event>)
    requires IsRun(cfg, states, events)
  {
    forall j :: 0 <= j < |events| ==>
      Roomy(LaunchShape(cfg), LaunchTable(states[j]), LaunchActions(cfg, states[j], events[j]))
  }

  lemma {:induction false} AggRunExact(cfg: Config, states: seq<System>, events: seq<Event>, k: nat,
                                       i: nat, select: AggKey -> bool)
    requires IsRun(cfg, states, events) && AggRoomy(cfg, states, events) && k <= |events|
    ensures TableExact(AggShape(cfg), AggTable(states[k]), CUDA_BOUNDS, Multiplier(cfg), i, select)
  {
    if k == 0 {
      EmptyExact(AggShape(cfg), CUDA_BOUNDS, Multiplier(cfg), i, select);
    } else {
      AggRunExact(cfg, states, events, k - 1, i, select);
      var s, a := states[k - 1], events[k - 1];
      NextAgg(cfg, s, a);
      FollowExact(AggShape(cfg), AggTable(s), AggTable(states[k]), AggActions(cfg, s, a),
                  CUDA_BOUNDS, Multiplier(cfg), i, select);
    }
  }

  lemma {:induction false} NcclRunExact(cfg: Config, states: seq<System>, events: seq<Event>, k: nat,
                                        i: nat, select: AggKey -> bool)
    requires IsRun(cfg, states, events) && NcclRoomy(cfg, states, events) && k <= |events|
    ensures TableExact(NcclShape(cfg), NcclTable(states[k]), NCCL_BOUNDS, 1, i, select)
  {
    if k == 0 {
      EmptyExact(NcclShape(cfg), NCCL_BOUNDS, 1, i, select);
    } else {
      NcclRunExact(cfg, states, events, k - 1, i, select);
      var s, a := states[k - 1], events[k - 1];
      NextNccl(cfg, s, a);
      FollowExact(NcclShape(cfg), NcclTable(s), NcclTable(states[k]), NcclActions(cfg, s, a),
                  NCCL_BOUNDS, 1, i, select);
    }
  }

  lemma {:induction false} LaunchRunExact(cfg: Config, states: seq<System>, events: seq<Event>, k: nat,
                                          i: nat, select: LaunchKey -> bool)
    requires IsRun(cfg, states, events) && LaunchRoomy(cfg, states, events) && k <= |events|
    ensures TableExact(LaunchShape(cfg), LaunchTable(states[k]), KERNEL_BOUNDS, 1, i, select)
  {
    if k == 0 {
      EmptyExact(LaunchShape(cfg), KERNEL_BOUNDS, 1, i, select);
    } else {
      LaunchRunExact(cfg, states, events, k - 1, i, select);
      var s, a := states[k - 1], events[k - 1];
      NextLaunch(cfg, s, a);
      FollowExact(LaunchShape(cfg), LaunchTable(s), LaunchTable(states[k]), LaunchActions(cfg, s, a),
                  KERNEL_BOUNDS, 1, i, select);
    }
  }

  /** End to end: in every state of every run, for every label tuple and every `le` position, all
      three histograms account for every completed call. */
  lemma PipelineHistogramsExact<L(!new)>(cfg: Config, states: seq<System>, events: seq<Event>, k: nat, i: nat,
                                         aggLabel: AggKey -> L, ncclLabel: AggKey -> L,
                                         launchLabel: LaunchKey -> L, l: L)
    requires IsRun(cfg, states, events) && k <= |events|
    requires AggRoomy(cfg, states, events) && NcclRoomy(cfg, states, events) && LaunchRoomy(cfg, states, events)
    ensures Accounted(AggTable(states[k]), CUDA_BOUNDS, Multiplier(cfg), i, Labelled(aggLabel, l))
    ensures Accounted(NcclTable(states[k]), NCCL_BOUNDS, 1, i, Labelled(ncclLabel, l))
    ensures Accounted(LaunchTable(states[k]), KERNEL_BOUNDS, 1, i, Labelled(launchLabel, l))
  {
    TablesIncreasing();
    AggRunExact(cfg, states, events, k, i, Labelled(aggLabel, l));
    NcclRunExact(cfg, states, events, k, i, Labelled(ncclLabel, l));
    LaunchRunExact(cfg, states, events, k, i, Labelled(launchLabel, l));
    ExactAccounted(AggShape(cfg), AggTable(states[k]), CUDA_BOUNDS, Multiplier(cfg), i, Labelled(aggLabel, l));
    ExactAccounted(NcclShape(cfg), NcclTable(states[k]), NCCL_BOUNDS, 1, i, Labelled(ncclLabel, l));
    ExactAccounted(LaunchShape(cfg), LaunchTable(states[k]), KERNEL_BOUNDS, 1, i, Labelled(launchLabel, l));
  }

  /** With atomic drains the raced terms are zero. */
  lemma PipelineRacesNothing(cfg: Config, states: seq<System>, events: seq<Event>, k: nat,
                             agg: Measure<AggKey>, nccl: Measure<AggKey>, launch: Measure<LaunchKey>)
    requires IsRun(cfg, states, events) && AtomicDrains(events) && k <= |events|
    ensures Raced(agg, AggTable(states[k])) == Raced(nccl, NcclTable(states[k]))
            == Raced(launch, LaunchTable(states[k])) == 0
  {
    RunCleanAgg(cfg, states, events, k);
    RunCleanNccl(cfg, states, events, k);
    RunCleanLaunch(cfg, states, events, k);
    UnracedWeighsNothing(agg, AggTable(states[k]));
    UnracedWeighsNothing(nccl, NcclTable(states[k]));
    UnracedWeighsNothing(launch, LaunchTable(states[k]));
  }

  // ----- whatever labels the cache serves

  /** What is published under `x`, when the row drained at `e` is published under `labels[e]` and only
      `project` of a label counts. */
  function PublishedUnder<K, L, X(==)>(weigh: Cell -> int, drained: seq<(K, Row)>, labels: seq<L>, project: L -> X,
                                       x: X): int
    requires |labels| == |drained|
  {
    if drained == [] then 0
    else
      var n := |drained| - 1;
      PublishedUnder(weigh, drained[..n], labels[..n], project, x)
      + if project(labels[n]) == x then RowWeight(weigh, drained[n].1) else 0
  }

  lemma {:induction false} UnderIsPublished<K, L, X>(m: Measure<K>, drained: seq<(K, Row)>, labels: seq<L>,
                                                     project: L -> X, of: K -> X, x: X)
    requires |labels| == |drained| && m.select == Labelled(of, x)
    requires forall e :: 0 <= e < |labels| ==> project(labels[e]) == of(drained[e].0)
    ensures PublishedUnder(m.weigh, drained, labels, project, x) == SumOver(drained, DrainWeight(m))
  {
    if drained != [] {
      var n := |drained| - 1;
      UnderIsPublished(m, drained[..n], labels[..n], project, of, x);
    }
  }

  /** A cache at its cap serves another handle of the same process, so a row may be published under
      labels that are not its own. Whatever the labels served, the histograms account for every call
      under each projection that the label served and the key agree on: the whole label for rows served
      by their own handle, the process always. */
  lemma ServedHistogramsExact<K(!new), L, X(!new)>(t: Table<K>, bounds: seq<nat>, rate: nat, i: nat,
                                                   labels: seq<L>, project: L -> X, of: K -> X, x: X)
    requires Accounted(t, bounds, rate, i, Labelled(of, x)) && |labels| == |t.past.drained|
    requires forall e :: 0 <= e < |labels| ==> project(labels[e]) == of(t.past.drained[e].0)
    ensures var select := Labelled(of, x);
            && PublishedUnder(LeWeight(i), t.past.drained, labels, project, x) + Resident(Le(i, select), t)
               + Raced(Le(i, select), t) + rate * AtMost(bounds, i, select, t.past.rejected)
               == rate * AtMost(bounds, i, select, t.past.log)
            && PublishedUnder(CountWeight(), t.past.drained, labels, project, x) + Resident(Count(select), t)
               + Raced(Count(select), t) + rate * AtMost(bounds, |bounds|, select, t.past.rejected)
               == rate * AtMost(bounds, |bounds|, select, t.past.log)
  {
    UnderIsPublished(Le(i, Labelled(of, x)), t.past.drained, labels, project, of, x);
    UnderIsPublished(Count(Labelled(of, x)), t.past.drained, labels, project, of, x);
  }
}
