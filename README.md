# Rank/collective coordination, and two training helpers, in Dafny

This project models the distributed-training utility layer of imaginaire
(`imaginaire/utils/distributed.py`) and two computing helpers of the FlowNet2
tools (`imaginaire/third_party/flow_net/flownet2/utils/tools.py`), and proves
what they promise.

**Distributed layer** (module `Distributed`, with the tensor arithmetic in
module `Tensors`):

- The process-wide `torch.distributed` state is a `Backend` value:
  `Unavailable`, `Uninitialized` or `Initialized(rank, worldSize)`.
  `GetRank`, `GetWorldSize` and `IsMaster` read it the way the source does.
  Without an initialised group a worker is a group of one, and it is its master.
- `InitDist` is a no-op on an unavailable backend or an initialised group.
  Otherwise it joins the group that the `env://` rendezvous describes. A
  rendezvous that cannot place the worker is an `InitializationError`.
- `MasterOnly` is the `master_only` decorator applied to a call. The wrapped
  body is a state transformer `(S, A) -> (S, R)`. So "the body did not run"
  means the state comes back untouched with `None`.
- A group of N workers is simulated in one place. `world[i]` is what rank i
  sees. `buffers[i]` is the tensor rank i passes to a collective. A tensor is a
  `seq<real>`. The transport is an in-memory exchange over the buffers.
- `DistReduceTensor` and `DistAllReduceTensor` update the buffers in place.
  `DistAllGatherTensor` returns, for each rank, the list that rank gets back.
  Their postconditions are stated against `Tensors.Mean`, the element-wise
  average of the contributions. All three are identities (the gather a
  one-element wrap) in a group of one.

**FlowNet2 tools** (module `FlowNetTools`):

- `KwargsFromArgs` is `kwargs_from_args`. The namespace is given as its items
  in iteration order, because two selected keys can strip to the same name,
  and then the later one wins.
- `UpdateHyperparameterSchedule` is `update_hyperparameter_schedule`. It is a
  method that updates an array of parameter-group records in place. It is
  specified by the function `ScheduledGroups`.

Caller obligations that the source leaves to convention, and this model too:
every worker calls the same collective in the same order with tensors of one
shape, and no collective is called inside a `master_only` body (only rank 0
would reach it, and the other ranks would wait forever).

Error behaviour, as the code has it:

- The collectives raise nothing of their own. Transport errors propagate as
  whatever torch raises, and are not modelled.
- A collective inside a `master_only` body is not detected.
- `init_dist` can fail in `torch.cuda.set_device` or in `init_process_group`.
  Only a rendezvous that cannot place the worker is modelled, as one
  `InitializationError`.
- `init_dist` on an unavailable backend silently does nothing. It does not fail.

## Model

| member | source | states |
|---|---|---|
| `Distributed.GetRank` | imaginaire/utils/distributed.py:20-22 | rank is 0 without an initialised group; for a valid state the rank is below the world size |
| `Distributed.GetWorldSize` | imaginaire/utils/distributed.py:25-31 | world size is 1 without an initialised group, and at least 1 for every valid state |
| `Distributed.IsMaster` | imaginaire/utils/distributed.py:44-46 | a worker without an initialised group is master; an initialised worker is master iff its rank is 0 |
| `Distributed.DegenerateGroup` | imaginaire/utils/distributed.py:20-31 | unavailable or uninitialised means rank 0, world size 1, and master |
| `Distributed.ExactlyOneMaster` | imaginaire/utils/distributed.py:44-46 | in every well-formed group of any size the set of master ranks is exactly {0} |
| `Distributed.WorldOfSeveral` | imaginaire/utils/distributed.py:25-31 | a group of two or more is initialised on every worker, with rank i at position i and the group's size |
| `Distributed.InitDist` | imaginaire/utils/distributed.py:11-17 | unavailable or already initialised: returns the state unchanged; otherwise succeeds iff the rendezvous places the worker inside the group, and then reports that rank and size |
| `Distributed.InitDistIsIdempotent` | imaginaire/utils/distributed.py:13-15 | a second initialisation, with any rendezvous, returns the same state, so rank and world size are unchanged |
| `Distributed.MasterOnly` | imaginaire/utils/distributed.py:34-41 | the body's result comes back iff the worker is master; on the master the state is the body's new state; elsewhere the state is untouched and the result is None |
| `Distributed.MasterOnlyRunsOnce` | imaginaire/utils/distributed.py:34-41 | when every worker of a group calls the wrapped function on its own state and arguments (the harness `MasterOnlyAcrossGroup`), the body runs on exactly one rank, rank 0, which gets its result; every other rank gets None with its state unchanged |
| `Distributed.TransportSum` | imaginaire/utils/distributed.py:61 | the in-memory sum-reduction yields the element-wise sum of every rank's buffer |
| `Distributed.DistReduceTensor` | imaginaire/utils/distributed.py:55-64 | group of one: buffers unchanged; rank 0 ends with the average (sum divided by world size) of all contributions for every group size; every buffer keeps its shape |
| `Distributed.DistAllReduceTensor` | imaginaire/utils/distributed.py:67-75 | group of one: buffers unchanged; every rank ends with the same value, the average of all contributions |
| `Distributed.Ones` | imaginaire/utils/distributed.py:84 | a placeholder of the requested length, all ones |
| `Distributed.DistAllGatherTensor` | imaginaire/utils/distributed.py:78-87 | group of one: the one-element list of the input; every rank gets a list whose element i is rank i's tensor, whatever the arrival order |
| `Distributed.AverageOfOneToFour` | imaginaire/utils/distributed.py:60-64 | contributions 1, 2, 3, 4 average to 2.5 |
| `Distributed.FourWorkerScenario` | imaginaire/utils/distributed.py:55-87 | four workers holding 1..4: all-reduce gives 2.5 on every rank, reduce gives 2.5 on rank 0, all-gather gives [1, 2, 3, 4] to every rank |
| `Distributed.SingleWorkerScenario` | imaginaire/utils/distributed.py:55-87 | an uninitialised single worker holding 5 gets 5 from reduce and all-reduce, and [5] from all-gather |
| `Tensors.Divide` | imaginaire/utils/distributed.py:63 | each element of the quotient times the divisor is the original element |
| `Tensors.MeanIsSumOverSize` | imaginaire/utils/distributed.py:60-64 | the result is an average, not a total: sum divided by the world size, and the average times the world size is the sum |
| `Tensors.MeanOfSwappedBlocks` | imaginaire/utils/distributed.py:72-74 | swapping two blocks of contributions leaves the average unchanged |
| `Tensors.MeanOfCopies` | imaginaire/utils/distributed.py:72-74 | if every rank contributes the same tensor, the average is that tensor |
| `Tensors.MeanOfOne` | imaginaire/utils/distributed.py:58-59 | the average over a group of one is its own contribution, so the short-circuit agrees with the general rule |
| `FlowNetTools.SubstringIffOccurs` | imaginaire/third_party/flow_net/flownet2/utils/tools.py:118 | the predicate `IsSubstring` used for Python's `in` holds iff the string occurs in the key at some position |
| `FlowNetTools.Marker` | imaginaire/third_party/flow_net/flownet2/utils/tools.py:114 | the marker is the class name followed by one underscore |
| `FlowNetTools.ClassKey` | imaginaire/third_party/flow_net/flownet2/utils/tools.py:118 | the excluded key is the marker followed by `class` |
| `FlowNetTools.Strip` | imaginaire/third_party/flow_net/flownet2/utils/tools.py:116 | the name is the key minus its first `len(cls) + 1` characters |
| `FlowNetTools.KwargsFromArgs` | imaginaire/third_party/flow_net/flownet2/utils/tools.py:113-119 | keeps the arguments that pass the filter `Selected` (the marker occurs in the key, and the key is not the class key), later ones overwriting earlier ones; the result has at most one entry per argument |
| `FlowNetTools.KwargsKeys` | imaginaire/third_party/flow_net/flownet2/utils/tools.py:114-118 | a name is in the result iff some argument key contains the marker, is not the class key, and strips to that name |
| `FlowNetTools.KwargsLastWins` | imaginaire/third_party/flow_net/flownet2/utils/tools.py:115-117 | a selected argument's value is passed through unchanged under its stripped name, unless a later selected key strips to the same name |
| `FlowNetTools.ClassKeyNeverContributes` | imaginaire/third_party/flow_net/flownet2/utils/tools.py:118 | removing the class key from the arguments leaves the result unchanged |
| `FlowNetTools.KwargsKeepsInfixMatch` | imaginaire/third_party/flow_net/flownet2/utils/tools.py:114-118 | the key `pre_model_lr` is selected for class `model` and comes out as `del_lr` |
| `FlowNetTools.KwargsFromArgsByPrefix` | imaginaire/third_party/flow_net/flownet2/utils/tools.py:113-119 | with the prefix test, the result has at most one entry per argument |
| `FlowNetTools.KwargsByPrefixRoundTrip` | imaginaire/third_party/flow_net/flownet2/utils/tools.py:113-119 | with the prefix test, a name is in the result iff the marker plus the name is an argument key and the name is not `class`, and it holds that argument's value |
| `FlowNetTools.DecayedLr` | imaginaire/third_party/flow_net/flownet2/utils/tools.py:181-183 | the new rate is at least 0.000001 and at least `lr / fraction`, and equals one of the two |
| `FlowNetTools.ScheduledGroup` | imaginaire/third_party/flow_net/flownet2/utils/tools.py:179-183 | only the rate of a group changes, and on a trigger it becomes the decayed rate, at least 0.000001 |
| `FlowNetTools.ScheduledGroups` | imaginaire/third_party/flow_net/flownet2/utils/tools.py:177-183 | no change unless `Triggers` holds (the frequency is positive and divides iteration + 1); fails with ZeroDivisionError iff it triggers on a zero fraction with a group present; otherwise same number of groups, other entries untouched, every rate decayed and at least 0.000001 |
| `FlowNetTools.UpdateHyperparameterSchedule` | imaginaire/third_party/flow_net/flownet2/utils/tools.py:177-183 | the array of groups becomes exactly `ScheduledGroups` of the old groups, or on ZeroDivisionError is left as it was |
| `FlowNetTools.DecayTwice` | imaginaire/third_party/flow_net/flownet2/utils/tools.py:180-183 | with fractions of at least 1, decaying twice equals decaying once by the product |
| `FlowNetTools.DecayedLrAfterIsClosedForm` | imaginaire/third_party/flow_net/flownet2/utils/tools.py:177-183 | with a fraction of at least 1, after k triggering iterations the rate is `max(lr / fraction^k, 0.000001)` |

## Left out

- The torch.distributed transport, the NCCL backend, the `init_process_group` rendezvous and CUDA device selection are foreign calls. The rendezvous outcome is a parameter of `InitDist`.
- `Distributed.InitDist` does not model the return value of `init_dist` (the current CUDA device) or `torch.cuda.set_device`, which select hardware. So a `set_device` failure (a bad device number, or no CUDA) is not modelled either.
- Blocking and barrier semantics, concurrency between workers, and the deadlock of a collective inside a `master_only` body are not modelled. The collectives are simulated for all ranks at once, sequentially.
- Floating-point rounding and reduction-order nondeterminism are not modelled. Tensor elements are `real`, and a tensor's shape is flattened to its length.
- Tensor storage aliasing is not modelled. Each rank's tensor is a value in its own array slot, and in-place updates replace that slot.
- `torch.no_grad` and autograd have no counterpart.
- `Distributed.DistReduceTensor` states only the shape of the non-root buffers afterwards, because the transport leaves their contents unspecified.
- `Distributed.MasterOnly` takes a single argument instead of `*args, **kwargs`, and does not model the `functools.wraps` metadata copy.
- `master_only_print` only prints.
- In tools.py these are clock, reflection, argparse, subprocess, string formatting or file I/O, and are not modelled: `datestr`, `module_to_dict`, `TimerBlock`, `add_arguments_for_module`, `format_dictionary_of_losses`, `IteratorTimer`, `gpumemusage`, `save_checkpoint`.
- `FlowNetTools.UpdateHyperparameterSchedule` assumes every group has an `lr` entry and the fraction is numeric, so a `KeyError` or a failing `float()` conversion is not modelled.
- `FlowNetTools.KwargsFromArgs` takes the namespace `vars(args)` as its items in iteration order.
- imaginaire/datasets/folder.py reads files and decodes images. It is not part of this model.
- imaginaire/third_party/flow_net/flownet2/utils/frame_utils.py dispatches to file readers. It is not part of this model.

## Findings

| source | as written | input that shows it | evidently intended | confidence | as-written member | corrected member |
|---|---|---|---|---|---|---|
| imaginaire/third_party/flow_net/flownet2/utils/tools.py:114-118 | keys are selected when `"<cls>_"` occurs anywhere in them, then lose their first `len(cls) + 1` characters | class `model`, argument `pre_model_lr`: selected, and passed on as `del_lr` | select only keys that start with `"<cls>_"`, so the stripped name is the rest of the key | medium, not executed | `FlowNetTools.KwargsKeepsInfixMatch` | `FlowNetTools.KwargsByPrefixRoundTrip` |
