/**
  The rank/collective coordination layer of imaginaire/utils/distributed.py.

  The process-wide torch.distributed state is an explicit `Backend` value.
  A group of N cooperating workers is simulated in one place: `world[i]` is
  the state seen by the worker of rank i, and `buffers[i]` is the tensor that
  worker passes to a collective. The transport (NCCL) is replaced by an
  in-memory exchange over those buffers.

  Caller obligation, not checked here: every worker calls the same collective
  in the same order with tensors of one shape, and no collective is called
  inside a body wrapped by `MasterOnly` (only rank 0 would reach it, and the
  group would stall).
 */
module Distributed {
  import opened Wrappers
  import opened Tensors

  /** What `torch.distributed` reports about this process. */
  datatype Backend =
    | Unavailable                                // dist.is_available() is false
    | Uninitialized                              // available, init_process_group not called
    | Initialized(rank: nat, worldSize: nat)     // after a successful init_process_group
  {
    /** An initialised group knows its rank, and the rank is inside the group. */
    predicate Valid()
    {
      Initialized? ==> rank < worldSize
    }
  }

  /** `get_rank`: the established rank, or 0 when there is no initialised group. */
  function GetRank(b: Backend): (r: nat)
    ensures !b.Initialized? ==> r == 0
    ensures b.Valid() ==> r < GetWorldSize(b)
  {
    if b.Initialized? then b.rank else 0
  }

  /** `get_world_size`: the established size, or 1 when there is no initialised group. */
  function GetWorldSize(b: Backend): (n: nat)
    ensures !b.Initialized? ==> n == 1
    ensures b.Valid() ==> n >= 1
  {
    if b.Initialized? then b.worldSize else 1
  }

  /** `is_master`: whether this worker is the coordinator. */
  function IsMaster(b: Backend): (m: bool)
    ensures !b.Initialized? ==> m
    ensures b.Initialized? ==> (m <==> b.rank == 0)
  {
    GetRank(b) == 0
  }

  /** Without an initialised group the worker is a group of one, and its master. */
  lemma DegenerateGroup(b: Backend)
    requires !b.Initialized?
    ensures b.Valid() && GetRank(b) == 0 && GetWorldSize(b) == 1 && IsMaster(b)
  {
  }

  /**
    The states of all workers of one group: worker i sees rank i and a world
    size equal to the number of workers. A group of one may be uninitialised.
   */
  predicate WellFormedWorld(world: seq<Backend>)
  {
    && |world| >= 1
    && forall i :: 0 <= i < |world| ==>
         world[i].Valid() && GetRank(world[i]) == i && GetWorldSize(world[i]) == |world|
  }

  /** Ranks whose worker reports itself as master. */
  function MasterRanks(world: seq<Backend>): (ranks: set<nat>)
  {
    set i: nat | i < |world| && IsMaster(world[i])
  }

  /** In any well-formed group exactly one worker, rank 0, is master. */
  lemma ExactlyOneMaster(world: seq<Backend>)
    requires WellFormedWorld(world)
    ensures MasterRanks(world) == {0}
    ensures forall i :: 0 <= i < |world| ==> (IsMaster(world[i]) <==> i == 0)
  {
  }

  // ---------------------------------------------------------------------------
  // init_dist

  /** The only failure modelled: the rendezvous cannot establish a valid position. */
  datatype InitError = InitializationError

  /** What the `env://` rendezvous establishes for this worker, if it completes. */
  datatype Rendezvous = Rendezvous(rank: int, worldSize: int)

  /**
    `init_dist`: a no-op when the backend is unavailable or the group is
    already initialised; otherwise joins the group the rendezvous describes.
    Device selection and the returned device are not modelled.
   */
  function InitDist(b: Backend, env: Rendezvous): (r: Result<Backend, InitError>)
    ensures !b.Uninitialized? ==> r == Ok(b)
    ensures b.Uninitialized? ==> (r.Ok? <==> 0 <= env.rank < env.worldSize)
    ensures r.Ok? && b.Uninitialized? ==>
              r.value.Initialized? && GetRank(r.value) == env.rank && GetWorldSize(r.value) == env.worldSize
    ensures r.Ok? && b.Valid() ==> r.value.Valid()
  {
    match b
    case Uninitialized =>
      if 0 <= env.rank < env.worldSize then Ok(Initialized(env.rank, env.worldSize))
      else Err(InitializationError)
    case _ => Ok(b)
  }

  /** Initialising twice is harmless: the second call changes nothing, whatever it is given. */
  lemma InitDistIsIdempotent(b: Backend, first: Rendezvous, second: Rendezvous)
    requires InitDist(b, first).Ok?
    ensures InitDist(InitDist(b, first).value, second) == InitDist(b, first)
    ensures GetRank(InitDist(InitDist(b, first).value, second).value) == GetRank(InitDist(b, first).value)
    ensures GetWorldSize(InitDist(InitDist(b, first).value, second).value) == GetWorldSize(InitDist(b, first).value)
  {
  }

  // ---------------------------------------------------------------------------
  // master_only

  /**
    `master_only(func)(*args)`: the wrapped body runs only on rank 0. The body
    is a state transformer, so that "runs" and "has side effects" are visible:
    on any other rank the state is returned untouched together with None.
   */
  function MasterOnly<S, A, R>(body: (S, A) -> (S, R), b: Backend, s: S, a: A): (out: (S, Option<R>))
    ensures out.1.Some? <==> IsMaster(b)
    ensures IsMaster(b) ==> out.0 == body(s, a).0 && out.1 == Some(body(s, a).1)
    ensures !IsMaster(b) ==> out.0 == s
  {
    if GetRank(b) == 0 then (body(s, a).0, Some(body(s, a).1)) else (s, None)
  }

  /** Every worker of a group calls the same wrapped function on its own state and arguments. */
  function MasterOnlyAcrossGroup<S, A, R>(body: (S, A) -> (S, R), world: seq<Backend>, states: seq<S>, args: seq<A>)
    : (outs: seq<(S, Option<R>)>)
    requires |states| == |world| && |args| == |world|
    ensures |outs| == |world|
    ensures forall i :: 0 <= i < |world| ==> outs[i] == MasterOnly(body, world[i], states[i], args[i])
  {
    seq(|world|, i requires 0 <= i < |world| => MasterOnly(body, world[i], states[i], args[i]))
  }

  /** Ranks on which the wrapped body ran. */
  function RanksThatRan<S, R>(outs: seq<(S, Option<R>)>): (ranks: set<nat>)
  {
    set i: nat | i < |outs| && outs[i].1.Some?
  }

  /**
    In a group, a `master_only` body runs exactly once, on rank 0, and returns
    its result there; every other worker gets None and keeps its state.
   */
  lemma MasterOnlyRunsOnce<S, A, R>(body: (S, A) -> (S, R), world: seq<Backend>, states: seq<S>, args: seq<A>)
    requires WellFormedWorld(world) && |states| == |world| && |args| == |world|
    ensures RanksThatRan(MasterOnlyAcrossGroup(body, world, states, args)) == {0}
    ensures MasterOnlyAcrossGroup(body, world, states, args)[0] == (body(states[0], args[0]).0, Some(body(states[0], args[0]).1))
    ensures forall i :: 1 <= i < |world| ==> MasterOnlyAcrossGroup(body, world, states, args)[i] == (states[i], None)
  {
  }

  // ---------------------------------------------------------------------------
  // Collectives

  /** In a group of two or more, every worker's state is an initialised one of that size. */
  lemma WorldOfSeveral(world: seq<Backend>)
    requires WellFormedWorld(world) && |world| >= 2
    ensures forall i :: 0 <= i < |world| ==> world[i] == Initialized(i, |world|)
  {
  }

  /**
    The in-memory stand-in for the transport's sum-reduction: the element-wise
    sum of every rank's buffer, accumulated in rank order.
   */
  method TransportSum(buffers: array<Tensor>) returns (total: Tensor)
    requires buffers.Length >= 1 && SameShape(buffers[..])
    ensures total == Sum(buffers[..])
  {
    total := buffers[0];
    var r := 1;
    assert buffers[..1] == [buffers[0]];
    while r < buffers.Length
      invariant 1 <= r <= buffers.Length
      invariant |total| == |buffers[0]|
      invariant forall k :: 0 <= k < |total| ==> total[k] == ColumnSum(buffers[..r], k)
    {
      assert buffers[..r + 1][..r] == buffers[..r];
      total := Add(total, buffers[r]);
      r := r + 1;
    }
    assert buffers[..r] == buffers[..];
  }

  /**
    `dist_reduce_tensor`: a group of one gets its tensor back unchanged.
    Otherwise the sum of all buffers lands on rank 0, and rank 0 divides it by
    the world size, so rank 0 ends holding the average, not the total. The
    other ranks' buffers are left in a state the transport does not specify:
    only their shape is promised.
   */
  method DistReduceTensor(world: seq<Backend>, buffers: array<Tensor>)
    requires WellFormedWorld(world) && buffers.Length == |world| && SameShape(buffers[..])
    modifies buffers
    ensures |world| < 2 ==> buffers[..] == old(buffers[..])
    ensures buffers[0] == Mean(old(buffers[..]))
    ensures forall r :: 0 <= r < buffers.Length ==> |buffers[r]| == |old(buffers[r])|
  {
    var worldSize := GetWorldSize(world[0]);
    if worldSize < 2 {
      assert buffers[..] == [buffers[0]];
      MeanOfOne(buffers[0]);
      return;
    }
    ghost var contributions := buffers[..];
    MeanIsSumOverSize(contributions);
    var total := TransportSum(buffers);
    // dist.reduce(tensor, dst=0): only rank 0 receives the sum
    buffers[0] := total;
    // each rank: `if get_rank() == 0: tensor /= world_size`
    var r := 0;
    while r < buffers.Length
      invariant 0 <= r <= buffers.Length
      invariant buffers[0] == if r == 0 then Sum(contributions) else Mean(contributions)
      invariant forall j :: 1 <= j < buffers.Length ==> buffers[j] == contributions[j]
    {
      if GetRank(world[r]) == 0 {
        buffers[r] := Divide(buffers[r], worldSize as real);
      }
      r := r + 1;
    }
  }

  /**
    `dist_all_reduce_tensor`: a group of one gets its tensor back unchanged.
    Otherwise every rank receives the sum and divides it by the world size, so
    every rank ends holding the same average. The average of one tensor is
    that tensor, so the second postcondition holds for every group size.
   */
  method DistAllReduceTensor(world: seq<Backend>, buffers: array<Tensor>)
    requires WellFormedWorld(world) && buffers.Length == |world| && SameShape(buffers[..])
    modifies buffers
    ensures |world| < 2 ==> buffers[..] == old(buffers[..])
    ensures forall r :: 0 <= r < buffers.Length ==> buffers[r] == Mean(old(buffers[..]))
  {
    var worldSize := GetWorldSize(world[0]);
    if worldSize < 2 {
      assert buffers[..] == [buffers[0]];
      MeanOfOne(buffers[0]);
      return;
    }
    ghost var contributions := buffers[..];
    MeanIsSumOverSize(contributions);
    var total := TransportSum(buffers);
    // dist.all_reduce(tensor): every rank receives the sum
    var r := 0;
    while r < buffers.Length
      invariant 0 <= r <= buffers.Length
      invariant forall j :: 0 <= j < r ==> buffers[j] == Sum(contributions)
    {
      buffers[r] := total;
      r := r + 1;
    }
    // each rank: tensor.div_(world_size)
    r := 0;
    while r < buffers.Length
      invariant 0 <= r <= buffers.Length
      invariant forall j :: 0 <= j < r ==> buffers[j] == Mean(contributions)
      invariant forall j :: r <= j < buffers.Length ==> buffers[j] == Sum(contributions)
    {
      buffers[r] := Divide(buffers[r], worldSize as real);
      r := r + 1;
    }
  }

  /** A tensor of ones with the given number of elements (`torch.ones_like`). */
  function Ones(n: nat): (t: Tensor)
    ensures |t| == n && forall k :: 0 <= k < n ==> t[k] == 1.0
  {
    seq(n, _ => 1.0)
  }

  /** The transport may deliver the contributions in any order, each rank exactly once. */
  predicate IsArrivalOrder(arrival: seq<nat>, n: nat)
  {
    && |arrival| == n
    && (forall t :: 0 <= t < n ==> arrival[t] < n)
    && (forall i :: 0 <= i < n ==> i in arrival)
  }

  /**
    `dist_all_gather_tensor`: `results[r]` is the list rank r gets back. A
    group of one gets its own tensor wrapped in a one-element list. Otherwise
    every rank allocates a list of `ones_like` placeholders which the transport
    fills, in whatever order the contributions arrive, at the index of the rank
    that sent them: every rank ends with the contributions in rank order.
   */
  method DistAllGatherTensor(world: seq<Backend>, buffers: array<Tensor>, arrival: seq<nat>)
    returns (results: seq<seq<Tensor>>)
    requires WellFormedWorld(world) && buffers.Length == |world| && SameShape(buffers[..])
    requires IsArrivalOrder(arrival, |world|)
    ensures |results| == |world|
    ensures |world| < 2 ==> results == [[buffers[0]]]
    ensures forall r :: 0 <= r < |results| ==> results[r] == buffers[..]
  {
    var worldSize := GetWorldSize(world[0]);
    if worldSize < 2 {
      results := [[buffers[0]]];
      assert buffers[..] == [buffers[0]];
      return;
    }
    results := [];
    var r := 0;
    while r < worldSize
      invariant 0 <= r <= worldSize
      invariant |results| == r
      invariant forall j :: 0 <= j < r ==> results[j] == buffers[..]
    {
      var shape := |buffers[r]|;
      var tensorList := new Tensor[worldSize](_ => Ones(shape));
      // dist.all_gather(tensor_list, tensor): slot i receives rank i's tensor
      var t := 0;
      while t < worldSize
        invariant 0 <= t <= worldSize
        invariant forall i :: i in arrival[..t] ==> tensorList[i] == buffers[i]
      {
        var sender := arrival[t];
        tensorList[sender] := buffers[sender];
        t := t + 1;
      }
      assert arrival[..t] == arrival;
      assert tensorList[..] == buffers[..];
      results := results + [tensorList[..]];
      r := r + 1;
    }
  }

  // ---------------------------------------------------------------------------
  // Worked scenarios

  /** Four workers holding 1, 2, 3 and 4: the average is 2.5. */
  lemma AverageOfOneToFour()
    ensures SameShape([[1.0], [2.0], [3.0], [4.0]])
    ensures Mean([[1.0], [2.0], [3.0], [4.0]]) == [2.5]
  {
    var ts: seq<Tensor> := [[1.0], [2.0], [3.0], [4.0]];
    var ts1, ts2, ts3: seq<Tensor> := [[1.0]], [[1.0], [2.0]], [[1.0], [2.0], [3.0]];
    assert ts1[..0] == [] && ts2[..1] == ts1 && ts3[..2] == ts2 && ts[..3] == ts3;
    assert ColumnSum(ts1, 0) == 1.0;
    assert ColumnSum(ts2, 0) == 3.0;
    assert ColumnSum(ts3, 0) == 6.0;
    assert ColumnSum(ts, 0) == 10.0;
  }

  /**
    A group of four workers with scalar tensors 1, 2, 3, 4: all-reduce gives
    2.5 everywhere, reduce gives 2.5 on rank 0, all-gather gives [1, 2, 3, 4]
    to every rank.
   */
  method FourWorkerScenario() returns (allReduced: seq<Tensor>, reducedOnRoot: Tensor, gathered: seq<seq<Tensor>>)
    ensures allReduced == [[2.5], [2.5], [2.5], [2.5]]
    ensures reducedOnRoot == [2.5]
    ensures gathered == [[[1.0], [2.0], [3.0], [4.0]], [[1.0], [2.0], [3.0], [4.0]],
                         [[1.0], [2.0], [3.0], [4.0]], [[1.0], [2.0], [3.0], [4.0]]]
  {
    var world := [Initialized(0, 4), Initialized(1, 4), Initialized(2, 4), Initialized(3, 4)];
    var contributions: seq<Tensor> := [[1.0], [2.0], [3.0], [4.0]];
    AverageOfOneToFour();

    var buffers := new Tensor[4](i requires 0 <= i < 4 => contributions[i]);
    assert buffers[..] == contributions;
    gathered := DistAllGatherTensor(world, buffers, [3, 1, 0, 2]);

    DistAllReduceTensor(world, buffers);
    allReduced := buffers[..];

    buffers := new Tensor[4](i requires 0 <= i < 4 => contributions[i]);
    assert buffers[..] == contributions;
    DistReduceTensor(world, buffers);
    reducedOnRoot := buffers[0];
  }

  /** A single worker without an initialised group: every collective gives back 5. */
  method SingleWorkerScenario() returns (reduced: Tensor, allReduced: Tensor, gathered: seq<Tensor>)
    ensures reduced == [5.0] && allReduced == [5.0] && gathered == [[5.0]]
  {
    var world := [Uninitialized];
    var buffers := new Tensor[1](_ => [5.0]);
    var results := DistAllGatherTensor(world, buffers, [0]);
    gathered := results[0];
    DistReduceTensor(world, buffers);
    reduced := buffers[0];
    DistAllReduceTensor(world, buffers);
    allReduced := buffers[0];
  }
}
