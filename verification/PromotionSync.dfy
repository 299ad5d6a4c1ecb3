/** Copying the promoted processes into the kernel's bounded UPGRADED_PIDS map. */
module PromotionSync {
  import opened Collections

  const CAPACITY := 1024

  /** The set the sync believes the kernel holds: what it wrote last, or the keys it reads when that
      was nothing. */
  function Believed(kernel: set<nat>, synced: set<nat>): set<nat> {
    if synced == {} then kernel else synced
  }

  /** What deletes followed by inserts, in any order, may leave: an insert into a full map is lost. */
  ghost predicate Written(kernel: set<nat>, believed: set<nat>, desired: set<nat>, after: set<nat>) {
    var kept := kernel - (believed - desired);
    var wanted := desired - believed;
    && kept <= after <= kept + wanted
    && (after == kept + wanted || |after| >= CAPACITY)
    && (|kernel| <= CAPACITY ==> |after| <= CAPACITY)
  }

  class UpgradedPids {
    var kernel: set<nat>
    var synced: set<nat>

    method Delete(pid: nat)
      modifies this`kernel
      ensures kernel == old(kernel) - {pid}
    {
      kernel := kernel - {pid};
    }

    method Update(pid: nat)
      modifies this`kernel
      ensures kernel == if pid in old(kernel) || |old(kernel)| < CAPACITY then old(kernel) + {pid} else old(kernel)
      ensures |old(kernel)| <= |kernel| <= if |old(kernel)| < CAPACITY then CAPACITY else |old(kernel)|
    {
      assert pid in kernel ==> kernel + {pid} == kernel;
      if pid in kernel || |kernel| < CAPACITY {
        kernel := kernel + {pid};
      }
    }

    method DeleteAll(pids: set<nat>)
      modifies this`kernel
      ensures kernel == old(kernel) - pids
    {
      var todo := pids;
      while todo != {}
        invariant todo <= pids && kernel == old(kernel) - (pids - todo)
      {
        var pid :| pid in todo;
        Delete(pid);
        todo := todo - {pid};
      }
    }

    method UpdateAll(pids: set<nat>)
      modifies this`kernel
      ensures old(kernel) <= kernel <= old(kernel) + pids
      ensures kernel == old(kernel) + pids || |kernel| >= CAPACITY
      ensures |old(kernel)| <= CAPACITY ==> |kernel| <= CAPACITY
    {
      var todo := pids;
      while todo != {}
        invariant todo <= pids && old(kernel) <= kernel <= old(kernel) + (pids - todo)
        invariant kernel == old(kernel) + (pids - todo) || |kernel| >= CAPACITY
        invariant |old(kernel)| <= CAPACITY ==> |kernel| <= CAPACITY
      {
        var pid :| pid in todo;
        Update(pid);
        todo := todo - {pid};
      }
    }

    /** The body of the tick once the flag was found set and the promoted set was read. */
    method Sync(desired: set<nat>)
      modifies this
      ensures synced == desired
      ensures Written(old(kernel), Believed(old(kernel), old(synced)), desired, kernel)
    {
      if synced == {} {
        synced := kernel;
      }
      SubsetSize(kernel - (synced - desired), kernel);
      DeleteAll(synced - desired);
      UpdateAll(desired - synced);
      synced := desired;
    }
  }

  /** A sync leaves a subset of what it read, and all of it exactly when that fits and nothing the
      sync takes for present is missing. */
  lemma SyncExactIff(kernel: set<nat>, believed: set<nat>, desired: set<nat>, after: set<nat>)
    requires kernel <= believed && |kernel| <= CAPACITY
    requires Written(kernel, believed, desired, after)
    ensures after <= desired
    ensures after == desired <==> desired * believed <= kernel && |desired| <= CAPACITY
  {
    var kept, wanted := kernel - (believed - desired), desired - believed;
    if desired * believed <= kernel {
      assert kept + wanted == desired;
      if |desired| <= CAPACITY && |after| >= CAPACITY {
        SubsetSize(after, desired);
      }
    }
    if after == desired {
      forall pid | pid in desired * believed ensures pid in kernel {
        assert pid !in wanted;
      }
    }
  }

  /** A promotion that a full map refused is not retried: while the process stays promoted, every later
      sync takes it for present, however much room there is. */
  lemma {:induction false} LostStaysLost(kernels: seq<set<nat>>, wanted: seq<set<nat>>, k: nat, pid: nat)
    requires |kernels| == |wanted| && k < |wanted| && pid !in kernels[0]
    requires forall j :: 0 <= j < |wanted| ==> pid in wanted[j]
    requires forall j :: 0 < j < |wanted| ==>
               Written(kernels[j - 1], Believed(kernels[j - 1], wanted[j - 1]), wanted[j], kernels[j])
    ensures pid !in kernels[k]
  {
    if k > 0 {
      LostStaysLost(kernels, wanted, k - 1, pid);
      assert pid in Believed(kernels[k - 1], wanted[k - 1]);
    }
  }

  function Below(n: nat): (r: set<nat>)
    ensures forall pid: nat :: pid in r <==> pid < n
  {
    if n == 0 then {} else Below(n - 1) + {n - 1}
  }

  lemma {:induction false} BelowSize(n: nat)
    ensures |Below(n)| == n
  {
    if n > 0 {
      BelowSize(n - 1);
    }
  }

  /** What the sync may leave that follows 1025 processes meeting an empty map, when the one refused is
      the only one still promoted. */
  ghost predicate SecondSync(after: set<nat>) {
    Written(Below(CAPACITY), Below(CAPACITY + 1), {CAPACITY}, after)
  }

  /** A concrete loss: 1025 promoted processes meet an empty map, one is refused; when it is the only one
      still promoted, the next sync takes it for present and can only leave the map empty. */
  lemma OverflowExample()
    ensures Written({}, {}, Below(CAPACITY + 1), Below(CAPACITY)) && Below(CAPACITY) != Below(CAPACITY + 1)
    ensures forall after :: SecondSync(after) <==> after == {}
  {
    BelowSize(CAPACITY);
    assert {} - ({} - Below(CAPACITY + 1)) == {};
    assert CAPACITY in Below(CAPACITY + 1) && CAPACITY !in Below(CAPACITY);
    assert Below(CAPACITY) - (Below(CAPACITY + 1) - {CAPACITY}) == {};
    assert {CAPACITY} - Below(CAPACITY + 1) == {};
  }
}
