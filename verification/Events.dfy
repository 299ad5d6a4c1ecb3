/** Event types, bucket tables and the two classification predicates shared by probes and userspace. */
module Events {

  const CUDA_MALLOC := 1
  const CUDA_FREE := 2
  const CUDA_MEMCPY := 3
  const CUDA_LAUNCH_KERNEL := 4
  const CUDA_MEMCPY_ASYNC := 5
  const CUDA_MALLOC_ASYNC := 6
  const CUDA_FREE_ASYNC := 7
  const NCCL_ALL_REDUCE := 9
  const NCCL_RECV := 14
  const CUDA_STREAM_SYNC := 15
  const CUDA_EVENT_SYNC := 16
  const CUDA_MALLOC_HOST := 17
  const CUDA_FREE_HOST := 18
  const CUDA_MEMSET := 19
  const CUDA_MEMSET_ASYNC := 20
  const CUDA_GRAPH_LAUNCH := 21
  const CUDA_GRAPH_INSTANTIATE := 22
  const CUDA_MODULE_LOAD := 23

  const NCCL_DTYPE_SIZES: seq<nat> := [1, 1, 4, 4, 2, 4, 8, 8, 8, 2]

  /** Upper bounds in nanoseconds; one more bucket, `+Inf`, follows the last bound. */
  const NCCL_BOUNDS: seq<nat> := [
    10_000, 50_000, 100_000, 500_000, 1_000_000, 5_000_000, 10_000_000, 50_000_000,
    100_000_000, 500_000_000, 1_000_000_000]
  const CUDA_BOUNDS: seq<nat> := [
    1_000, 5_000, 10_000, 50_000, 100_000, 500_000, 1_000_000, 5_000_000, 10_000_000,
    50_000_000, 100_000_000, 500_000_000, 1_000_000_000]
  const KERNEL_BOUNDS: seq<nat> := [
    1_000, 5_000, 10_000, 50_000, 100_000, 500_000, 1_000_000, 10_000_000]

  predicate IsNccl(eventType: nat) {
    NCCL_ALL_REDUCE <= eventType <= NCCL_RECV
  }

  predicate IsMalloc(eventType: nat) {
    eventType == CUDA_MALLOC || eventType == CUDA_MALLOC_ASYNC
  }

  predicate IsFree(eventType: nat) {
    eventType == CUDA_FREE || eventType == CUDA_FREE_ASYNC
  }

  predicate IsAggregatable(eventType: nat) {
    || IsMalloc(eventType) || IsFree(eventType)
    || eventType == CUDA_MEMCPY || eventType == CUDA_MEMCPY_ASYNC
    || eventType == CUDA_MALLOC_HOST || eventType == CUDA_FREE_HOST
    || eventType == CUDA_MEMSET || eventType == CUDA_MEMSET_ASYNC
    || eventType == CUDA_STREAM_SYNC || eventType == CUDA_EVENT_SYNC
    || eventType == CUDA_GRAPH_LAUNCH || eventType == CUDA_GRAPH_INSTANTIATE
    || eventType == CUDA_MODULE_LOAD
  }

  /** Where the chain of `<=` tests over a bound table stops. */
  function BucketIndex(bounds: seq<nat>, duration: nat): (r: nat)
    ensures r <= |bounds|
  {
    if bounds == [] then 0
    else if duration <= bounds[0] then 0
    else 1 + BucketIndex(bounds[1..], duration)
  }

  predicate Increasing(bounds: seq<nat>) {
    forall i, j :: 0 <= i < j < |bounds| ==> bounds[i] < bounds[j]
  }

  lemma TablesIncreasing()
    ensures Increasing(NCCL_BOUNDS) && Increasing(CUDA_BOUNDS) && Increasing(KERNEL_BOUNDS)
    ensures |NCCL_BOUNDS| == 11 && |CUDA_BOUNDS| == 13 && |KERNEL_BOUNDS| == 8
  {
  }

  /** The bucket of a duration decides every cumulative `le` count: bounds are inclusive, and
      durations above the last bound count in no finite `le`. */
  lemma {:induction false} BucketDecidesLe(bounds: seq<nat>, duration: nat, i: nat)
    requires Increasing(bounds) && i < |bounds|
    ensures duration <= bounds[i] <==> BucketIndex(bounds, duration) <= i
  {
    if duration > bounds[0] && i > 0 {
      BucketDecidesLe(bounds[1..], duration, i - 1);
    }
  }

  /** The userspace mirror of the chain: a loop over the table that returns at the first hit. */
  method FindBucket(bounds: seq<nat>, duration: nat) returns (r: nat)
    requires Increasing(bounds)
    ensures r == BucketIndex(bounds, duration)
    ensures forall i :: 0 <= i < |bounds| ==> (duration <= bounds[i] <==> r <= i)
  {
    forall i | 0 <= i < |bounds|
      ensures duration <= bounds[i] <==> BucketIndex(bounds, duration) <= i
    {
      BucketDecidesLe(bounds, duration, i);
    }
    for i := 0 to |bounds|
      invariant BucketIndex(bounds, duration) >= i
    {
      if duration <= bounds[i] {
        return i;
      }
    }
    return |bounds|;
  }
}
