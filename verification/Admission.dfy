/** The per-process caps refine first come, first served: the admitted streams and launch addresses
    are the first distinct non-zero values requested since the process was last collected. */
module Admission {
  import opened Events
  import opened HandleCache

  /** The distinct non-zero values of a sequence. */
  function Distinct(s: seq<nat>): set<nat> {
    set x | x in s && x != 0
  }

  /** The distinct non-zero values that occur before `x` first does. */
  function Before(s: seq<nat>, x: nat): set<nat> {
    if s == [] || s[0] == x then {} else Distinct([s[0]]) + Before(s[1..], x)
  }

  /** Reference: the values that fewer than `cap` others precede. */
  function FirstCome(cap: nat, s: seq<nat>): set<nat> {
    set x | x in s && x != 0 && |Before(s, x)| < cap
  }

  lemma {:induction false} BeforeSeen(s: seq<nat>, y: nat, x: nat)
    requires x in s
    ensures Before(s + [y], x) == Before(s, x)
  {
    if s[0] != x {
      assert (s + [y])[1..] == s[1..] + [y];
      BeforeSeen(s[1..], y, x);
    }
  }

  lemma {:induction false} BeforeNew(s: seq<nat>, x: nat)
    requires x !in s
    ensures Before(s + [x], x) == Distinct(s)
  {
    if s == [] {
      assert Distinct(s) == {};
    } else {
      assert (s + [x])[1..] == s[1..] + [x];
      BeforeNew(s[1..], x);
      assert s == [s[0]] + s[1..];
      assert Distinct(s) == Distinct([s[0]]) + Distinct(s[1..]);
    }
  }

  lemma FirstComeNew(cap: nat, s: seq<nat>, x: nat)
    ensures FirstCome(cap, s + [x]) ==
            FirstCome(cap, s) + (if x != 0 && x !in s && |Distinct(s)| < cap then {x} else {})
  {
    forall y | y in s ensures Before(s + [x], y) == Before(s, y) {
      BeforeSeen(s, x, y);
    }
    if x !in s {
      BeforeNew(s, x);
    }
  }

  lemma SizeStep(cap: nat, a: set<nat>, d: set<nat>, x: nat)
    requires a <= d && x !in d
    requires |a| == if |d| < cap then |d| else cap
    requires |d| <= cap ==> a == d
    ensures var a', d' := a + (if |d| < cap then {x} else {}), d + {x};
            && |a'| == (if |d'| < cap then |d'| else cap)
            && (|d'| <= cap ==> a' == d')
  {
  }

  lemma DistinctSnoc(p: seq<nat>, x: nat)
    ensures Distinct(p + [x]) == Distinct(p) + (if x == 0 then {} else {x})
  {
  }

  /** Admission stops exactly when the cap is reached. */
  lemma {:induction false} FirstComeSize(cap: nat, s: seq<nat>)
    ensures |FirstCome(cap, s)| == if |Distinct(s)| < cap then |Distinct(s)| else cap
    ensures |Distinct(s)| <= cap ==> FirstCome(cap, s) == Distinct(s)
  {
    if s == [] {
      assert Distinct(s) == {} && FirstCome(cap, s) == {};
    } else {
      var n := |s| - 1;
      var p, x := s[..n], s[n];
      assert s == p + [x];
      FirstComeSize(cap, p);
      FirstComeGrows(cap, p, x);
    }
  }

  lemma FirstComeGrows(cap: nat, p: seq<nat>, x: nat)
    requires |FirstCome(cap, p)| == if |Distinct(p)| < cap then |Distinct(p)| else cap
    requires |Distinct(p)| <= cap ==> FirstCome(cap, p) == Distinct(p)
    ensures |FirstCome(cap, p + [x])| == if |Distinct(p + [x])| < cap then |Distinct(p + [x])| else cap
    ensures |Distinct(p + [x])| <= cap ==> FirstCome(cap, p + [x]) == Distinct(p + [x])
  {
    FirstComeNew(cap, p, x);
    DistinctSnoc(p, x);
    if x != 0 && x !in p {
      SizeStep(cap, FirstCome(cap, p), Distinct(p), x);
    } else {
      assert Distinct(p + [x]) == Distinct(p) && FirstCome(cap, p + [x]) == FirstCome(cap, p);
    }
  }

  /** One more request against the reference, in the terms the cache uses. */
  lemma FirstComeNext(cap: nat, s: seq<nat>, x: nat)
    ensures FirstCome(cap, s + [x]) == Admit(FirstCome(cap, s), cap, x)
  {
    FirstComeNew(cap, s, x);
    FirstComeSize(cap, s);
  }

  // ----- what a process asked for since it was last collected

  function StreamRequests(cfg: Settings, ops: seq<Op>, pid: nat): seq<nat> {
    if ops == [] then []
    else
      var before := StreamRequests(cfg, ops[..|ops| - 1], pid);
      match ops[|ops| - 1]
      case Record(r, _) => if r.key.pid == pid then before + [r.key.stream] else before
      case Invalidate(_) => before
      case Sweep(now, staleAfter) => if Idle(Run(cfg, ops[..|ops| - 1]), pid, now, staleAfter) then [] else before
  }

  function KernelRequests(cfg: Settings, ops: seq<Op>, pid: nat): seq<nat> {
    if ops == [] then []
    else
      var before := KernelRequests(cfg, ops[..|ops| - 1], pid);
      match ops[|ops| - 1]
      case Record(r, _) =>
        if r.key.pid == pid && r.key.eventType == CUDA_LAUNCH_KERNEL then before + [r.key.addr] else before
      case Invalidate(_) => before
      case Sweep(now, staleAfter) => if Idle(Run(cfg, ops[..|ops| - 1]), pid, now, staleAfter) then [] else before
  }

  lemma CollapseAdmits(sets: map<nat, set<nat>>, cap: nat, owner: nat, x: nat, pid: nat)
    ensures Admitted(Collapse(sets, cap, owner, x).0, pid) ==
            if owner == pid then Admit(Admitted(sets, pid), cap, x) else Admitted(sets, pid)
  {
  }

  /** What an operation does to the streams of a process. */
  function StreamsAfter(cfg: Settings, c: Cache, op: Op, pid: nat): set<nat> {
    var a := Admitted(c.streams, pid);
    match op
    case Record(r, _) => if r.key.pid == pid then Admit(a, cfg.limits.maxStreams, r.key.stream) else a
    case Invalidate(_) => a
    case Sweep(now, staleAfter) => if Idle(c, pid, now, staleAfter) then {} else a
  }

  function KernelsAfter(cfg: Settings, c: Cache, op: Op, pid: nat): set<nat> {
    var a := Admitted(c.kernels, pid);
    match op
    case Record(r, _) =>
      if r.key.pid == pid && r.key.eventType == CUDA_LAUNCH_KERNEL
      then Admit(a, cfg.limits.maxKernels, r.key.addr) else a
    case Invalidate(_) => a
    case Sweep(now, staleAfter) => if Idle(c, pid, now, staleAfter) then {} else a
  }

  lemma SweepSets(sets: map<nat, set<nat>>, gone: set<nat>, pid: nat)
    ensures Admitted(sets - gone, pid) == if pid in gone then {} else Admitted(sets, pid)
  {
  }

  lemma EnsureSets(cfg: Settings, c: Cache, wanted: Key, series: set<Series>)
    ensures Ensure(cfg, c, wanted, series).streams == WithStream(cfg, c, wanted).0
    ensures Ensure(cfg, c, wanted, series).kernels == WithKernel(cfg, c, wanted).0
    ensures Ensure(cfg, c, wanted, series).handles.Keys <= c.handles.Keys + {Canonical(cfg, c, wanted)}
  {
  }

  lemma ObserveSets(cfg: Settings, c: Cache, r: Request, at: nat)
    ensures Observe(cfg, c, r, at).streams == WithStream(cfg, c, r.key).0
    ensures Observe(cfg, c, r, at).kernels == WithKernel(cfg, c, r.key).0
    ensures Observe(cfg, c, r, at).handles.Keys <= c.handles.Keys + {Canonical(cfg, c, r.key)}
  {
    EnsureSets(cfg, c, r.key, SeriesFor(cfg, Canonical(cfg, c, r.key), r));
  }

  lemma ApplyStreams(cfg: Settings, c: Cache, op: Op, pid: nat)
    ensures Admitted(Apply(cfg, c, op).streams, pid) == StreamsAfter(cfg, c, op, pid)
  {
    match op
    case Record(r, at) =>
      ObserveSets(cfg, c, r, at);
      CollapseAdmits(c.streams, cfg.limits.maxStreams, r.key.pid, r.key.stream, pid);
    case Sweep(now, staleAfter) => SweepSets(c.streams, Stale(c, now, staleAfter), pid);
    case Invalidate(_) =>
  }

  lemma RecordKernels(cfg: Settings, c: Cache, r: Request, at: nat, pid: nat)
    ensures Admitted(Observe(cfg, c, r, at).kernels, pid) == KernelsAfter(cfg, c, Record(r, at), pid)
  {
    ObserveSets(cfg, c, r, at);
    CollapseAdmits(c.kernels, cfg.limits.maxKernels, r.key.pid, r.key.addr, pid);
  }

  lemma ApplyKernels(cfg: Settings, c: Cache, op: Op, pid: nat)
    ensures Admitted(Apply(cfg, c, op).kernels, pid) == KernelsAfter(cfg, c, op, pid)
  {
    match op
    case Record(r, at) => RecordKernels(cfg, c, r, at, pid);
    case Sweep(now, staleAfter) => SweepSets(c.kernels, Stale(c, now, staleAfter), pid);
    case Invalidate(_) =>
  }

  /** After every sequence of operations, the streams admitted for a process are the first
      `maxStreams` distinct non-zero ones requested since its last collection. */
  lemma {:induction false} StreamsFirstCome(cfg: Settings, ops: seq<Op>, pid: nat)
    ensures Admitted(Run(cfg, ops).streams, pid) == FirstCome(cfg.limits.maxStreams, StreamRequests(cfg, ops, pid))
  {
    if ops != [] {
      var c, op := Run(cfg, ops[..|ops| - 1]), ops[|ops| - 1];
      StreamsFirstCome(cfg, ops[..|ops| - 1], pid);
      ApplyStreams(cfg, c, op, pid);
      if op.Record? {
        FirstComeNext(cfg.limits.maxStreams, StreamRequests(cfg, ops[..|ops| - 1], pid), op.request.key.stream);
      }
    }
  }

  /** The same of launch addresses. */
  lemma {:induction false} KernelsFirstCome(cfg: Settings, ops: seq<Op>, pid: nat)
    ensures Admitted(Run(cfg, ops).kernels, pid) == FirstCome(cfg.limits.maxKernels, KernelRequests(cfg, ops, pid))
  {
    if ops != [] {
      var c, op := Run(cfg, ops[..|ops| - 1]), ops[|ops| - 1];
      KernelsFirstCome(cfg, ops[..|ops| - 1], pid);
      ApplyKernels(cfg, c, op, pid);
      if op.Record? {
        FirstComeNext(cfg.limits.maxKernels, KernelRequests(cfg, ops[..|ops| - 1], pid), op.request.key.addr);
      }
    }
  }

  // ----- identity of admitted values

  lemma CollapseIdempotent(sets: map<nat, set<nat>>, cap: nat, pid: nat, x: nat)
    ensures var once := Collapse(sets, cap, pid, x);
            var twice := Collapse(once.0, cap, pid, once.1);
            twice.1 == once.1 && forall p :: Admitted(twice.0, p) == Admitted(once.0, p)
  {
  }

  /** Canonicalising twice is canonicalising once: the second time changes neither key nor sets. */
  lemma CanonicalIdempotent(cfg: Settings, c: Cache, r: Request, pid: nat)
    ensures var key, c' := Canonical(cfg, c, r.key), GetOrCreate(cfg, c, r);
            && Canonical(cfg, c', key) == key
            && Admitted(WithStream(cfg, c', key).0, pid) == Admitted(c'.streams, pid)
            && Admitted(WithKernel(cfg, c', key).0, pid) == Admitted(c'.kernels, pid)
  {
    CollapseIdempotent(c.streams, cfg.limits.maxStreams, r.key.pid, r.key.stream);
    CollapseIdempotent(c.kernels, cfg.limits.maxKernels, r.key.pid, r.key.addr);
  }

  /** An admitted stream stays admitted, and so keeps its own series, until its process is collected:
      neither requests nor invalidations take it away. */
  lemma AdmittedStays(cfg: Settings, c: Cache, op: Op, key: Key)
    requires key.stream in Admitted(c.streams, key.pid)
    requires op.Sweep? ==> !Idle(c, key.pid, op.now, op.staleAfter)
    ensures key.stream in Admitted(Apply(cfg, c, op).streams, key.pid)
    ensures Canonical(cfg, Apply(cfg, c, op), key).stream == key.stream
  {
    ApplyStreams(cfg, c, op, key.pid);
  }

  /** The same of a launch address. */
  lemma AdmittedKernelStays(cfg: Settings, c: Cache, op: Op, key: Key)
    requires key.eventType == CUDA_LAUNCH_KERNEL && key.addr in Admitted(c.kernels, key.pid)
    requires op.Sweep? ==> !Idle(c, key.pid, op.now, op.staleAfter)
    ensures key.addr in Admitted(Apply(cfg, c, op).kernels, key.pid)
    ensures Canonical(cfg, Apply(cfg, c, op), key).addr == key.addr
  {
    ApplyKernels(cfg, c, op, key.pid);
  }

  /** A cached key uses an admitted value or zero. */
  ghost predicate UsesAdmitted(c: Cache, key: Key) {
    && (key.stream == 0 || key.stream in Admitted(c.streams, key.pid))
    && (key.eventType == CUDA_LAUNCH_KERNEL ==> key.addr == 0 || key.addr in Admitted(c.kernels, key.pid))
  }

  /** The key a request is served under uses admitted values, in the sets the request leaves. */
  lemma CanonicalUses(cfg: Settings, c: Cache, r: Request, at: nat)
    ensures UsesAdmitted(Observe(cfg, c, r, at), Canonical(cfg, c, r.key))
  {
  }

  lemma KeptUses(cfg: Settings, c: Cache, op: Op, key: Key)
    requires UsesAdmitted(c, key) && (op.Sweep? ==> !Idle(c, key.pid, op.now, op.staleAfter))
    ensures UsesAdmitted(Apply(cfg, c, op), key)
  {
    ApplyStreams(cfg, c, op, key.pid);
    ApplyKernels(cfg, c, op, key.pid);
  }

  lemma SweptHandles(c: Cache, now: nat, staleAfter: nat, key: Key)
    ensures key in Gc(c, now, staleAfter).handles ==> key in c.handles && !Idle(c, key.pid, now, staleAfter)
  {
  }

  lemma HandlesAfter(cfg: Settings, c: Cache, op: Op, key: Key)
    requires key in Apply(cfg, c, op).handles
    ensures key in c.handles || (op.Record? && key == Canonical(cfg, c, op.request.key))
    ensures op.Sweep? ==> !Idle(c, key.pid, op.now, op.staleAfter)
  {
    match op
    case Record(r, at) => ObserveSets(cfg, c, r, at);
    case Sweep(now, staleAfter) => SweptHandles(c, now, staleAfter, key);
    case Invalidate(_) =>
  }

  lemma ApplyUses(cfg: Settings, c: Cache, op: Op, key: Key)
    requires key in c.handles ==> UsesAdmitted(c, key)
    requires key in Apply(cfg, c, op).handles
    ensures UsesAdmitted(Apply(cfg, c, op), key)
  {
    HandlesAfter(cfg, c, op, key);
    if key in c.handles {
      KeptUses(cfg, c, op, key);
    } else {
      CanonicalUses(cfg, c, op.request, op.at);
    }
  }

  lemma {:induction false} KeysUseAdmitted(cfg: Settings, ops: seq<Op>)
    ensures forall k :: k in Run(cfg, ops).handles ==> UsesAdmitted(Run(cfg, ops), k)
  {
    if ops != [] {
      var c, op := Run(cfg, ops[..|ops| - 1]), ops[|ops| - 1];
      KeysUseAdmitted(cfg, ops[..|ops| - 1]);
      forall k | k in Apply(cfg, c, op).handles ensures UsesAdmitted(Apply(cfg, c, op), k) {
        ApplyUses(cfg, c, op, k);
      }
    }
  }
}
