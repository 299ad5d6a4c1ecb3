/** The recursion guard of `save_entry` and `emit_exit`: without sampling, a thread's calls are
    reported once per leaf of its call forest, each report attributed to the outermost call of the
    run of entries that led to it, whatever the other threads and the drains do. */
module RecursionGuard {
  import opened Probes
  import opened Pipeline

  /** What one thread does: enter a probed function, or return from one. */
  datatype Mark = In(eventType: nat, at: nat) | Out(at: nat)

  function MarksOf(a: Event, id: ThreadId): seq<Mark> {
    match a
    case Enter(i, _, e) => if i == id then [In(e.eventType, e.timestamp)] else []
    case MallocEnter(i, _, _, e) => if i == id then [In(e.eventType, e.timestamp)] else []
    case FreeEnter(i, _, _, now, _, t) => if i == id then [In(t, now)] else []
    case Exit(i, _, _, now, _) => if i == id then [Out(now)] else []
    case MallocExit(i, _, _, now, _, _) => if i == id then [Out(now)] else []
    case _ => []
  }

  function TraceOf(events: seq<Event>, id: ThreadId): seq<Mark> {
    if events == [] then []
    else TraceOf(events[..|events| - 1], id) + MarksOf(events[|events| - 1], id)
  }

  /** The first entry of the run of consecutive entries that ends at `j`. */
  function RunHead(trace: seq<Mark>, j: nat): (h: nat)
    requires j < |trace| && trace[j].In?
    ensures h <= j && (forall i :: h <= i <= j ==> trace[i].In?)
    ensures h == 0 || trace[h - 1].Out?
  {
    if j == 0 || trace[j - 1].Out? then j else RunHead(trace, j - 1)
  }

  lemma {:induction false} RunHeadPrefix(trace: seq<Mark>, more: seq<Mark>, j: nat)
    requires j < |trace| && trace[j].In?
    ensures RunHead(trace + more, j) == RunHead(trace, j)
  {
    if j > 0 && trace[j - 1].In? {
      RunHeadPrefix(trace, more, j - 1);
    }
  }

  /** The reports a trace calls for: one for every return that directly follows an entry. */
  function Expected(id: ThreadId, trace: seq<Mark>): seq<Emitted> {
    if |trace| < 2 then []
    else
      var n := |trace| - 1;
      var before := Expected(id, trace[..n]);
      if trace[n].Out? && trace[n - 1].In? then
        var head := trace[RunHead(trace, n - 1)];
        before + [Emitted(id, head.eventType, head.at, trace[n].at)]
      else before
  }

  function ReportsOf(records: seq<Emitted>, id: ThreadId): seq<Emitted> {
    if records == [] then []
    else
      var n := |records| - 1;
      ReportsOf(records[..n], id) + if records[n].id == id then [records[n]] else []
  }

  ghost predicate Tracks(s: System, id: ThreadId, trace: seq<Mark>) {
    && ReportsOf(s.records, id) == Expected(id, trace)
    && (id in s.maps.inflight <==> trace != [] && trace[|trace| - 1].In?)
    && (id in s.maps.inflight ==>
          var head := trace[RunHead(trace, |trace| - 1)];
          s.maps.inflight[id].eventType == head.eventType && s.maps.inflight[id].timestamp == head.at)
  }

  lemma ExpectedSnoc(id: ThreadId, trace: seq<Mark>, m: Mark)
    ensures Expected(id, trace + [m]) ==
            if m.Out? && trace != [] && trace[|trace| - 1].In? then
              var head := trace[RunHead(trace, |trace| - 1)];
              Expected(id, trace) + [Emitted(id, head.eventType, head.at, m.at)]
            else Expected(id, trace)
  {
    assert (trace + [m])[..|trace|] == trace;
    if trace != [] && trace[|trace| - 1].In? {
      RunHeadPrefix(trace, [m], |trace| - 1);
    }
  }

  function EntryOf(s: System, a: Event): Entry
    requires a.Enter? || a.MallocEnter? || a.FreeEnter?
  {
    if a.FreeEnter? then Entry(a.now, FreedSize(s.maps, a.id.pid, a.ptr), 0, a.stream, a.eventType) else a.entry
  }

  /** What a step does to INFLIGHT and to the reports, without sampling. */
  ghost predicate Effect(s: System, s': System, a: Event) {
    if a.Enter? || a.MallocEnter? || a.FreeEnter? then
      && s'.records == s.records
      && s'.maps.inflight == if a.id in s.maps.inflight then s.maps.inflight else s.maps.inflight[a.id := EntryOf(s, a)]
    else if a.Exit? || a.MallocExit? then
      && s'.maps.inflight == s.maps.inflight - {a.id}
      && s'.records == if a.id !in s.maps.inflight then s.records
                       else var e := s.maps.inflight[a.id];
                            s.records + [Emitted(a.id, e.eventType, e.timestamp, a.now)]
    else s'.records == s.records && s'.maps.inflight == s.maps.inflight
  }

  lemma ExitEffect(cfg: Config, s: System, a: Event)
    requires Ready(cfg, s, a) && (a.Exit? || a.MallocExit?)
    ensures Effect(s, Next(cfg, s, a), a)
  {
    if a.id !in s.maps.inflight {
      assert s.maps.inflight - {a.id} == s.maps.inflight;
    }
  }

  lemma SaveUnsampled(cfg: Config, m: Maps, id: ThreadId, cpu: nat, e: Entry)
    requires Good(cfg, m) && cpu < cfg.cpus && cfg.rate <= 1
    ensures SaveEntry(cfg, m, id, cpu, e).inflight == if id in m.inflight then m.inflight else m.inflight[id := e]
  {
  }

  lemma EnterEffect(cfg: Config, s: System, a: Event)
    requires Ready(cfg, s, a) && cfg.rate <= 1 && (a.Enter? || a.MallocEnter? || a.FreeEnter?)
    ensures Effect(s, Next(cfg, s, a), a)
  {
    match a
    case Enter(id, cpu, e) => SaveUnsampled(cfg, s.maps, id, cpu, e);
    case MallocEnter(id, cpu, ptr, e) =>
      SaveUnsampled(cfg, if ptr != 0 then s.maps.(mallocPtrs := s.maps.mallocPtrs[id := ptr]) else s.maps, id, cpu, e);
    case FreeEnter(id, cpu, ptr, now, stream, t) =>
      var untracked := if ptr != 0 then s.maps.(mallocSizes := s.maps.mallocSizes - {(id.pid, ptr)}) else s.maps;
      SaveUnsampled(cfg, untracked, id, cpu, EntryOf(s, a));
  }

  lemma NextEffect(cfg: Config, s: System, a: Event)
    requires Ready(cfg, s, a) && cfg.rate <= 1
    ensures Effect(s, Next(cfg, s, a), a)
  {
    if a.Exit? || a.MallocExit? {
      ExitEffect(cfg, s, a);
    } else if a.Enter? || a.MallocEnter? || a.FreeEnter? {
      EnterEffect(cfg, s, a);
    }
  }

  lemma EntryTracks(s: System, s': System, id: ThreadId, trace: seq<Mark>, e: Entry)
    requires Tracks(s, id, trace) && s'.records == s.records
    requires s'.maps.inflight == if id in s.maps.inflight then s.maps.inflight else s.maps.inflight[id := e]
    ensures Tracks(s', id, trace + [In(e.eventType, e.timestamp)])
  {
    var m := In(e.eventType, e.timestamp);
    ExpectedSnoc(id, trace, m);
    if trace != [] && trace[|trace| - 1].In? {
      RunHeadPrefix(trace, [m], |trace| - 1);
    }
  }

  lemma EnterTracks(s: System, s': System, a: Event, trace: seq<Mark>)
    requires a.Enter? || a.MallocEnter? || a.FreeEnter?
    requires Effect(s, s', a) && Tracks(s, a.id, trace)
    ensures Tracks(s', a.id, trace + MarksOf(a, a.id))
  {
    var e := EntryOf(s, a);
    assert MarksOf(a, a.id) == [In(e.eventType, e.timestamp)];
    EntryTracks(s, s', a.id, trace, e);
  }

  lemma ReportsSnoc(records: seq<Emitted>, r: Emitted, id: ThreadId)
    ensures ReportsOf(records + [r], id) == ReportsOf(records, id) + if r.id == id then [r] else []
  {
    assert (records + [r])[..|records|] == records;
  }

  lemma ExitTracks(s: System, s': System, a: Event, trace: seq<Mark>)
    requires a.Exit? || a.MallocExit?
    requires Effect(s, s', a) && Tracks(s, a.id, trace)
    ensures Tracks(s', a.id, trace + MarksOf(a, a.id))
  {
    ExpectedSnoc(a.id, trace, Out(a.now));
    assert MarksOf(a, a.id) == [Out(a.now)];
    if a.id in s.maps.inflight {
      var e := s.maps.inflight[a.id];
      ReportsSnoc(s.records, Emitted(a.id, e.eventType, e.timestamp, a.now), a.id);
    }
  }

  /** Steps of other threads, and of the drains, are invisible to a thread. */
  lemma OthersTrack(s: System, s': System, a: Event, id: ThreadId, trace: seq<Mark>)
    requires Effect(s, s', a) && Tracks(s, id, trace) && MarksOf(a, id) == []
    ensures Tracks(s', id, trace + MarksOf(a, id))
  {
    assert trace + [] == trace;
    if (a.Exit? || a.MallocExit?) && a.id in s.maps.inflight {
      var e := s.maps.inflight[a.id];
      ReportsSnoc(s.records, Emitted(a.id, e.eventType, e.timestamp, a.now), id);
    }
  }

  lemma EffectTracks(s: System, s': System, a: Event, id: ThreadId, trace: seq<Mark>)
    requires Effect(s, s', a) && Tracks(s, id, trace)
    ensures Tracks(s', id, trace + MarksOf(a, id))
  {
    if MarksOf(a, id) == [] {
      OthersTrack(s, s', a, id, trace);
    } else if a.Exit? || a.MallocExit? {
      ExitTracks(s, s', a, trace);
    } else {
      EnterTracks(s, s', a, trace);
    }
  }

  /** In every run without sampling, each thread's reports are those its own trace calls for. */
  lemma {:induction false} GuardReports(cfg: Config, states: seq<System>, events: seq<Event>, k: nat, id: ThreadId)
    requires IsRun(cfg, states, events) && cfg.rate <= 1 && k <= |events|
    ensures Tracks(states[k], id, TraceOf(events[..k], id))
  {
    if k > 0 {
      GuardReports(cfg, states, events, k - 1, id);
      assert events[..k][..k - 1] == events[..k - 1];
      NextEffect(cfg, states[k - 1], events[k - 1]);
      EffectTracks(states[k - 1], states[k], events[k - 1], id, TraceOf(events[..k - 1], id));
    }
  }

  // ----- call forests

  /** Well-nested calls, as first child and next sibling. */
  datatype Forest = Nil | Call(eventType: nat, start: nat, end: nat, inner: Forest, rest: Forest)

  function Flatten(f: Forest): seq<Mark> {
    match f
    case Nil => []
    case Call(t, start, end, inner, rest) => [In(t, start)] + Flatten(inner) + [Out(end)] + Flatten(rest)
  }

  function Leaves(f: Forest): nat {
    match f
    case Nil => 0
    case Call(_, _, _, inner, rest) => (if inner.Nil? then 1 else Leaves(inner)) + Leaves(rest)
  }

  lemma {:induction false} FlattenEnds(f: Forest)
    requires f.Call?
    ensures |Flatten(f)| >= 2 && Flatten(f)[0].In? && Flatten(f)[|Flatten(f)| - 1].Out?
  {
    if f.rest.Call? {
      FlattenEnds(f.rest);
    }
  }

  /** Reports of a concatenation: those of the parts, and one more where an entry meets a return. */
  lemma {:induction false} ReportsConcat(id: ThreadId, a: seq<Mark>, b: seq<Mark>)
    ensures |Expected(id, a + b)| == |Expected(id, a)| + |Expected(id, b)| +
                                     (if a != [] && b != [] && a[|a| - 1].In? && b[0].Out? then 1 else 0)
    decreases |b|
  {
    if b == [] {
      assert a + b == a;
    } else {
      var n := |b| - 1;
      ReportsConcat(id, a, b[..n]);
      assert a + b == (a + b[..n]) + [b[n]] && b == b[..n] + [b[n]];
      ExpectedSnoc(id, a + b[..n], b[n]);
      ExpectedSnoc(id, b[..n], b[n]);
    }
  }

  lemma {:induction false} OneReportPerLeaf(id: ThreadId, f: Forest)
    ensures |Expected(id, Flatten(f))| == Leaves(f)
  {
    if f.Call? {
      var open, close := [In(f.eventType, f.start)], [Out(f.end)];
      var inner, rest := Flatten(f.inner), Flatten(f.rest);
      OneReportPerLeaf(id, f.inner);
      OneReportPerLeaf(id, f.rest);
      if f.inner.Call? { FlattenEnds(f.inner); }
      if f.rest.Call? { FlattenEnds(f.rest); }
      ReportsConcat(id, open, inner);
      ReportsConcat(id, open + inner, close);
      ReportsConcat(id, open + inner + close, rest);
    }
  }

  /** Main theorem: a thread whose calls so far form the forest `f` has exactly one report per leaf of
      `f`, namely the expected ones, and nothing in flight. */
  lemma GuardCountsLeaves(cfg: Config, states: seq<System>, events: seq<Event>, id: ThreadId, f: Forest)
    requires IsRun(cfg, states, events) && cfg.rate <= 1 && TraceOf(events, id) == Flatten(f)
    ensures ReportsOf(states[|events|].records, id) == Expected(id, Flatten(f))
    ensures |ReportsOf(states[|events|].records, id)| == Leaves(f)
    ensures id !in states[|events|].maps.inflight
  {
    assert events[..|events|] == events;
    GuardReports(cfg, states, events, |events|, id);
    OneReportPerLeaf(id, f);
    if f.Call? {
      FlattenEnds(f);
    }
  }

  /** A chain of wrappers, each calling the next and nothing else. */
  predicate Chain(f: Forest) {
    f.Call? && f.rest.Nil? && (f.inner.Nil? || Chain(f.inner))
  }

  function Innermost(f: Forest): (g: Forest)
    requires Chain(f)
    ensures g.Call? && g.inner.Nil?
  {
    if f.inner.Nil? then f else Innermost(f.inner)
  }

  predicate AllIn(p: seq<Mark>) {
    forall i :: 0 <= i < |p| ==> p[i].In?
  }

  lemma {:induction false} NoReportsYet(id: ThreadId, p: seq<Mark>)
    requires AllIn(p)
    ensures Expected(id, p) == []
  {
    if p != [] {
      NoReportsYet(id, p[..|p| - 1]);
    }
  }

  lemma {:induction false} HeadIsFirst(p: seq<Mark>, j: nat)
    requires AllIn(p) && j < |p|
    ensures RunHead(p, j) == 0
  {
    if j > 0 {
      HeadIsFirst(p, j - 1);
    }
  }

  lemma {:induction false} ChainAfter(id: ThreadId, p: seq<Mark>, f: Forest)
    requires Chain(f) && AllIn(p) && p != []
    ensures Expected(id, p + Flatten(f)) == [Emitted(id, p[0].eventType, p[0].at, Innermost(f).end)]
    decreases f
  {
    var q := p + [In(f.eventType, f.start)];
    if f.inner.Nil? {
      assert p + Flatten(f) == q + [Out(f.end)];
      NoReportsYet(id, q);
      HeadIsFirst(q, |q| - 1);
      ExpectedSnoc(id, q, Out(f.end));
    } else {
      ChainAfter(id, q, f.inner);
      FlattenEnds(f.inner);
      assert p + Flatten(f) == (q + Flatten(f.inner)) + [Out(f.end)];
      ExpectedSnoc(id, q + Flatten(f.inner), Out(f.end));
    }
  }

  /** A chain of wrappers, however deep, yields one report: type and start of the outermost call, up
      to the return of the innermost. */
  lemma ChainYieldsOneReport(id: ThreadId, f: Forest)
    requires Chain(f)
    ensures Expected(id, Flatten(f)) == [Emitted(id, f.eventType, f.start, Innermost(f).end)]
  {
    var p := [In(f.eventType, f.start)];
    if f.inner.Nil? {
      assert Flatten(f) == p + [Out(f.end)];
      ExpectedSnoc(id, p, Out(f.end));
    } else {
      ChainAfter(id, p, f.inner);
      FlattenEnds(f.inner);
      assert Flatten(f) == (p + Flatten(f.inner)) + [Out(f.end)];
      ExpectedSnoc(id, p + Flatten(f.inner), Out(f.end));
    }
  }
}
