# Paddle auto-parallel API, RPC stores and dy2static decorator rewrite in Dafny

This project models three parts of PaddlePaddle and proves properties about them.

1. **The auto-parallel front end** (`python/paddle/distributed/auto_parallel/api.py`). Tensors, process meshes and programs are treated as metadata: shapes, placements (`Shard(dim)`, `Replicate`, `Partial`) and dims-mappings. The model covers:
   - `DistAttr` construction;
   - `shard_tensor` (dynamic mode), `dtensor_from_local` and `dtensor_from_fn`;
   - both branches of `reshard`. The static branch appends an annotated `assign` op to a program block held in a class;
   - `shard_layer`, which replicates the parameters and buffers of every sublayer in place;
   - `_ShardOptimizer`: accumulator sharding, the pipeline mesh for the global-norm clip, `step` over plain lists and parameter groups, and `state_dict`;
   - `FusePasses`, the `Strategy` check and the conversion to the engine's strategy;
   - `DistModel`: its mode state machine, the feed-name cache, `__call__` result selection, and the distributed state dict (`_build_distributed_state_dict`, `set_state_dict`);
   - the optimizer unwrapping in `to_static`.
2. **The RPC stores** (`paddle/fluid/platform/rpc_utils.h`). `RpcVocabulary` is an id→word table filled from (word, id) pairs. `RpcRequestStore` has a wrap-around request-id counter and three write-once maps. `emplace` never overwrites, and `operator[]` inserts a default on a missing key. Both are classes whose methods update their fields.
3. **The dynamic-to-static decorator rewrite** (`python/paddle/jit/dy2static/decorator_transformer.py`). `visit_FunctionDef` does the following:
   - folds over the decorators innermost first;
   - drops the names the static graph handles itself;
   - threads the target name `_orig_f` → `_decoedby_<d>` → …;
   - rebuilds the body as: the original function, one statement per decorator, and a final `return` call.

   Each decorator's text and extracted name are inputs. The generated statements are kept in the structured form their text is printed from.

Files:
- `common.dfy`: `Option`, `Result`, Python exception kinds, and sequence and arithmetic helpers.
- `placements.dfy`: meshes, placements, tensor metadata and local shapes.
- `dist_attr.dfy`, `dtensor.dfy`, `reshard.dfy`, `shard_layer.dfy`, `shard_optimizer.dfy`, `dist_model.dfy`, `state_dict.dfy`: the auto-parallel API.
- `rpc_utils.dfy`: the RPC stores.
- `decorator_transformer.dfy`: the decorator rewrite.

## Model

| member | source | states |
|---|---|---|
| Placements.AllReplicate | python/paddle/distributed/auto_parallel/api.py:443-446 | `[Replicate() for _ in range(n)]` has length n and holds only `Replicate` |
| Placements.ShardFactorPositive | python/paddle/distributed/auto_parallel/api.py:199-205 | on a mesh with positive extents, every tensor dimension is cut into a positive number of pieces |
| Placements.ShardFactorUnsharded | python/paddle/distributed/auto_parallel/api.py:199-205 | a dimension that no placement shards is cut into exactly one piece |
| Placements.LocalShape | python/paddle/distributed/auto_parallel/api.py:178-190 | the local shape the runtime gives a distributed tensor keeps the tensor's rank |
| Placements.FirstShardAxis | python/paddle/distributed/auto_parallel/api.py:289-290 | finds the first mesh axis whose placement is `Shard(d)`; None exactly when no axis shards d |
| Placements.ShardSpec | python/paddle/distributed/auto_parallel/api.py:289-290 | `get_shard_spec` gives one entry per tensor dimension |
| DistAttrs.IndexOf | python/paddle/distributed/auto_parallel/api.py:91-94 | `list.index`: found exactly when the name is present, and then it is the first position holding it |
| DistAttrs.DimsMappingMeaning | python/paddle/distributed/auto_parallel/api.py:91-94 | the comprehension succeeds iff every name is a mesh axis name; the result has one entry per spec: -1 for None, otherwise the index of the name |
| DistAttrs.NewDistAttr | python/paddle/distributed/auto_parallel/api.py:77-102 | a non-mesh or a non-list raises ValueError; a spec that is neither str nor None fails the assertion; an unknown name raises ValueError; otherwise the mesh, the mapping and both annotation flags are set |
| DistAttrs.UnmappedIffMinusOne | python/paddle/distributed/auto_parallel/api.py:91-94 | a dims-mapping entry is -1 exactly when its spec is None |
| DistAttrs.SpecsOf | python/paddle/distributed/auto_parallel/api.py:289-290 | the sharding spec, read as `sharding_specs` entries position by position |
| DistAttrs.DistAttrFromPlacements | python/paddle/distributed/auto_parallel/api.py:289-290 | a DistAttr built from the sharding spec of a placement list maps every tensor dimension to the first mesh axis sharding it, or to -1 |
| DistAttrs.TargetDimsMapping | python/paddle/distributed/auto_parallel/api.py:289-290 | the target dims-mapping has one entry per tensor dimension; with distinct axis names, entry d is the first mesh axis that shards d, or -1 |
| DTensor.ShardTensor | python/paddle/distributed/auto_parallel/api.py:178-190 | in dynamic mode the tensor keeps its global shape, carries the given mesh and placements, and its local part has the local shape of those placements |
| DTensor.ShapeAfter | python/paddle/distributed/auto_parallel/api.py:199-205 | the partial global shape during the loop keeps the local rank |
| DTensor.DTensorFromLocal | python/paddle/distributed/auto_parallel/api.py:197-215 | fails with IndexError exactly when a `Shard` dimension is out of range. Otherwise the global shape keeps the rank, and dimension d is the local extent times the product of the mesh extents of every axis sharding d. The local tensor is wrapped, not recomputed |
| DTensor.FromLocalShape | python/paddle/distributed/auto_parallel/api.py:197-203 | the global shape `dtensor_from_local` computes: IndexError when some `Shard` placement names a dimension past the local rank or sits on an axis the mesh does not have; otherwise each dimension is its local extent times the extents of every mesh axis sharding it |
| DTensor.FromLocalInverse | python/paddle/distributed/auto_parallel/api.py:197-215 | the local shard of the built tensor is the local tensor, and splitting the global shape over the mesh gives back the local shape |
| DTensor.FromLocalUnsharded | python/paddle/distributed/auto_parallel/api.py:199-205 | with no `Shard` placement the global shape equals the local shape |
| DTensor.DTensorFromFn | python/paddle/distributed/auto_parallel/api.py:218-246 | the result has the shape of what `fn` returns, with the given mesh and placements |
| Reshard.PartialDims | python/paddle/distributed/auto_parallel/api.py:291-294 | exactly the indices of the `Partial` placements, in strictly increasing order |
| Reshard.DynamicReshardAttr | python/paddle/distributed/auto_parallel/api.py:286-298 | the attribute handed to the runtime carries the target mesh and the target dims-mapping, is annotated, and lists exactly the `Partial` axes in increasing order |
| Reshard.Program.constructor | python/paddle/distributed/auto_parallel/api.py:300-348 | an empty block: no variables, ops, registered annotations or skipped ops |
| Reshard.Program.StaticReshard | python/paddle/distributed/auto_parallel/api.py:300-348 | a non-Variable input fails the assertion and changes nothing. Otherwise it creates a fresh variable with the input's dtype, shape, variable type, persistable and stop-gradient flags, and appends exactly one `assign` op from the input to it, leaving the earlier ops alone. That op is registered with the target mesh, chunk id 0, and input and output dims-mappings equal to the target mapping, both annotated. It is also marked as skipped by sharding propagation |
| ShardLayer.Replicated | python/paddle/distributed/auto_parallel/api.py:441-453 | None stays None; a distributed tensor is left untouched; a dense one becomes distributed with the same shape and one `Replicate()` per tensor dimension (`len(shape)`, as written) |
| ShardLayer.ReplicateAll | python/paddle/distributed/auto_parallel/api.py:441-466 | the dictionary keeps its keys and every entry is replicated |
| ShardLayer.ReplicateAllDistributes | python/paddle/distributed/auto_parallel/api.py:441-466 | afterwards every non-None entry is distributed |
| ShardLayer.ReplicateAllIdempotent | python/paddle/distributed/auto_parallel/api.py:441-466 | replicating a second time, on any mesh, changes nothing |
| ShardLayer.Layer.constructor | python/paddle/distributed/auto_parallel/api.py:438-466 | a sublayer holding the given parameter and buffer dictionaries |
| ShardLayer.Layer.ReplicateParamsAndBuffers | python/paddle/distributed/auto_parallel/api.py:438-466 | both dictionaries of the layer are replaced by their replicated form, in place |
| ShardLayer.ReplicateSlots | python/paddle/distributed/auto_parallel/api.py:441-453 | the key-by-key loop gives the replicated dictionary |
| ShardLayer.ShardLayer | python/paddle/distributed/auto_parallel/api.py:429-500 | a None or non-mesh argument raises ValueError, and static mode raises NotImplementedError; neither changes any layer. Dynamic mode succeeds: every sublayer ends in the state after its `shard_fn` (if any) and then replication |
| ShardLayer.ShardLayerDistributesAll | python/paddle/distributed/auto_parallel/api.py:468-481 | after `shard_layer` every non-None parameter and buffer of every sublayer is distributed |
| ShardLayer.AfterShard | python/paddle/distributed/auto_parallel/api.py:468-481 | the parameters and buffers one sublayer ends with: the user's `shard_fn` (if any) runs first, and then every entry it left dense is replicated |
| ShardLayer.ShardLayerTwiceIsOnce | python/paddle/distributed/auto_parallel/api.py:468-473 | applying `shard_layer` without `shard_fn` a second time changes nothing |
| ShardOptimizer.TargetName | python/paddle/distributed/auto_parallel/api.py:534-536 | accumulators are addressed under the master weight's name when the parameter has one, else under its own name |
| ShardOptimizer.ShardedAccumulator | python/paddle/distributed/auto_parallel/api.py:539-565 | a distributed accumulator is kept; with a `shard_fn`, its result is stored; without one, a dense parameter leaves it unchanged, and for a distributed parameter a kind containing `beta` gets `Replicate` on every mesh axis while any other kind gets the parameter's placements |
| ShardOptimizer.ShardDense | python/paddle/distributed/auto_parallel/api.py:541-565 | the loop body for a dense accumulator stores the sharded accumulator |
| ShardOptimizer.Created | python/paddle/distributed/auto_parallel/api.py:532-538 | `_create_accumulators` gives every kind an entry for the target, keeps every earlier entry, and adds no other name |
| ShardOptimizer.ShardEntries | python/paddle/distributed/auto_parallel/api.py:539-565 | only the target's entry of each kind changes, to its sharded form; keys and other entries are unchanged |
| ShardOptimizer.AdamWAccumulatorsFollowParam | python/paddle/distributed/auto_parallel/api.py:548-565 | for a parameter sharded on dim 0 of a one-axis mesh, AdamW's `beta1_pow_acc` is replicated and `moment1` is sharded on dim 0 |
| ShardOptimizer.WithGrads | python/paddle/distributed/auto_parallel/api.py:583-588 | `params_grads` holds exactly the trainable parameters that have a gradient |
| ShardOptimizer.ClipIds | python/paddle/distributed/auto_parallel/api.py:589-595 | `all_process_ids` holds exactly the process-id lists of the meshes of trainable distributed parameters, each once |
| ShardOptimizer.CollectParams | python/paddle/distributed/auto_parallel/api.py:583-595 | the loop builds the gradient list and, only when asked to, the de-duplicated id lists |
| ShardOptimizer.Column | python/paddle/distributed/auto_parallel/api.py:573-574 | `mesh[:, c]` holds element c of every row |
| ShardOptimizer.LastColumnWith | python/paddle/distributed/auto_parallel/api.py:573-576 | the last column holding the rank, or None when no column holds it |
| ShardOptimizer.PpMeshOfMeaning | python/paddle/distributed/auto_parallel/api.py:567-577 | no mesh for at most one id list; a ragged id array raises ValueError; otherwise the mesh is the last column that holds the current rank, or none |
| ShardOptimizer.PpMeshOf | python/paddle/distributed/auto_parallel/api.py:567-577 | `generate_pp_mesh`: no mesh for at most one id list, ValueError for a ragged id array, otherwise the one-axis mesh over the last column holding the current rank, or none |
| ShardOptimizer.GeneratePpMesh | python/paddle/distributed/auto_parallel/api.py:567-577 | the loop over the columns computes the pipeline mesh described above |
| ShardOptimizer.AccAfter | python/paddle/distributed/auto_parallel/api.py:530-565 | after `_shard_accumulator(p)` every accumulator kind is present |
| ShardOptimizer.AccAfterEntries | python/paddle/distributed/auto_parallel/api.py:530-565 | after `_shard_accumulator(p)` the target's entry of every kind is the sharded accumulator, and every other entry is as before |
| ShardOptimizer.PartlyShardedStep | python/paddle/distributed/auto_parallel/api.py:539-565 | one more loop iteration shards one more kind's entry |
| ShardOptimizer.PartlyShardedAll | python/paddle/distributed/auto_parallel/api.py:539-565 | when every kind has been visited, the table is fully sharded |
| ShardOptimizer.ShardTable | python/paddle/distributed/auto_parallel/api.py:539-565 | the in-place loop over the kinds gives the fully sharded table |
| ShardOptimizer.AccAfterIdempotent | python/paddle/distributed/auto_parallel/api.py:530-565 | without a `shard_fn`, sharding a parameter's accumulators twice is the same as once |
| ShardOptimizer.AccAfterIdempotentAt | python/paddle/distributed/auto_parallel/api.py:530-565 | the same for one accumulator kind |
| ShardOptimizer.AccAfterAll | python/paddle/distributed/auto_parallel/api.py:601-602 | sharding a list of parameters in turn creates no kinds beyond the configured ones |
| ShardOptimizer.AccAfterAllLast | python/paddle/distributed/auto_parallel/api.py:601-602 | the last parameter is sharded after all the others |
| ShardOptimizer.AccAfterAllAppend | python/paddle/distributed/auto_parallel/api.py:601-602 | sharding for `xs + ys` is sharding for `xs`, then for `ys` |
| ShardOptimizer.AccAfterAllFrame | python/paddle/distributed/auto_parallel/api.py:601-602 | an entry whose name is no parameter's target is unchanged |
| ShardOptimizer.UpdatedGroup | python/paddle/distributed/auto_parallel/api.py:635-638 | a group keeps its parameters and clip kind; once the flag is set, the group is unchanged |
| ShardOptimizer.AllGradsPrefix | python/paddle/distributed/auto_parallel/api.py:606-648 | the groups' gradient lists concatenate group by group |
| ShardOptimizer.GroupGrads | python/paddle/distributed/auto_parallel/api.py:607-646 | one `_apply_optimize` call per group, with that group's trainable parameters that have a gradient |
| ShardOptimizer.GroupGradsPrefix | python/paddle/distributed/auto_parallel/api.py:606-648 | the calls for one more group extend the calls by that group's list |
| ShardOptimizer.AccAfterGroups | python/paddle/distributed/auto_parallel/api.py:606-648 | sharding group by group creates no kinds beyond the configured ones |
| ShardOptimizer.AccAfterGroupsPrefix | python/paddle/distributed/auto_parallel/api.py:606-648 | one more group shards that group's parameters after the earlier ones |
| ShardOptimizer.AccAfterGroupsFlat | python/paddle/distributed/auto_parallel/api.py:606-648 | sharding group by group equals sharding all groups' parameters in one list |
| ShardOptimizer.NextCalls | python/paddle/distributed/auto_parallel/api.py:606-648 | recording one more group's call extends the recorded calls by that group |
| ShardOptimizer.GroupParams | python/paddle/distributed/auto_parallel/api.py:657-662 | every parameter of every group is among the collected parameters |
| ShardOptimizer.Fake | python/paddle/distributed/auto_parallel/api.py:686-701 | a fake gradient changes only the gradient state of a parameter |
| ShardOptimizer.Faked | python/paddle/distributed/auto_parallel/api.py:684-701 | every parameter gets its fake gradient, position by position |
| ShardOptimizer.Cleared | python/paddle/distributed/auto_parallel/api.py:722-723 | `clear_grad(set_to_zero=False)` drops the gradient of every trainable parameter and keeps everything else |
| ShardOptimizer.FakedGrads | python/paddle/distributed/auto_parallel/api.py:684-721 | a parameter's faked copy is among those the faked step optimizes iff the parameter is trainable and either has no `main_grad` attribute or already has `grad` set. The fake gradient of a parameter with a `main_grad` attribute goes into `main_grad`, while `step` reads `grad` (`_grad_ivar()`), so such a parameter is left out |
| ShardOptimizer.ClipIdsFaked | python/paddle/distributed/auto_parallel/api.py:684-721 | faking gradients does not change which meshes the clip collects |
| ShardOptimizer.HasStarted | python/paddle/distributed/auto_parallel/api.py:657-671 | true exactly when some trainable parameter already has a gradient |
| ShardOptimizer.TrainingStarted | python/paddle/distributed/auto_parallel/api.py:657-671 | some trainable parameter already has its gradient: `main_grad` when it has that attribute, `grad` otherwise |
| ShardOptimizer.DistState | python/paddle/distributed/auto_parallel/api.py:673-680 | some entry of the inner state dict, other than `master_weights` and `LR_Scheduler`, is distributed |
| ShardOptimizer.EarlyReturn | python/paddle/distributed/auto_parallel/api.py:655-680 | `state_dict` returns at once: training has started or some state is already distributed |
| ShardOptimizer.FakeGrads | python/paddle/distributed/auto_parallel/api.py:684-701 | the faking loop gives every parameter its fake gradient |
| ShardOptimizer.FakeGroupGrads | python/paddle/distributed/auto_parallel/api.py:702-720 | the faking loop over groups fakes every group's parameters and keeps everything else of the group |
| ShardOptimizer.Optimizer.constructor | python/paddle/distributed/auto_parallel/api.py:504-528 | the clip is sharded exactly when it is a global-norm clip; the flag is clear; no accumulators, no pipeline mesh, no optimize calls |
| ShardOptimizer.Optimizer.ShardAccumulator | python/paddle/distributed/auto_parallel/api.py:530-565 | the table becomes the table after `_shard_accumulator(p)`, and nothing else changes |
| ShardOptimizer.Optimizer.ShardAccumulators | python/paddle/distributed/auto_parallel/api.py:601-602 | sharding every parameter in turn gives the table after the whole list |
| ShardOptimizer.Optimizer.Step | python/paddle/distributed/auto_parallel/api.py:579-648 | an empty parameter list raises IndexError. Plain list: succeeds iff the list is non-empty and any pipeline mesh it must generate does not fail. Then the accumulators are sharded for the trainable parameters with gradients, one optimize call is recorded. Only when the optimizer's clip is a global-norm clip (`_shard_clip`) is the one-shot flag set and, on the first such step, the clip's pipeline mesh generated; otherwise flag and mesh stay as they were. Failure changes nothing. Groups: the same per group, and the flag is set afterwards |
| ShardOptimizer.Optimizer.StepPlain | python/paddle/distributed/auto_parallel/api.py:580-605 | the plain-list outcome described for `step` |
| ShardOptimizer.Optimizer.GenerateClipMesh | python/paddle/distributed/auto_parallel/api.py:596-600 | the clip's pipeline mesh is generated only when the one-shot flag is clear and the clip is a global-norm clip; on success the flag is set for a global-norm clip and keeps its value for any other clip, and nothing else changes; a ValueError from `generate_pp_mesh` changes nothing |
| ShardOptimizer.Optimizer.StepGroups | python/paddle/distributed/auto_parallel/api.py:606-648 | the parameter-group outcome described for `step` |
| ShardOptimizer.Optimizer.StepEachGroup | python/paddle/distributed/auto_parallel/api.py:606-648 | the loop over the groups succeeds iff every group's pipeline mesh does not fail. Then every group is updated, the accumulators are those after all groups, and one optimize call per group is recorded |
| ShardOptimizer.Optimizer.StepGroupAt | python/paddle/distributed/auto_parallel/api.py:606-648 | one iteration of that loop keeps its invariant: the groups, the table and the calls after the first i+1 groups, all of which passed; a failing group leaves the groups as they were and makes the whole step fail |
| ShardOptimizer.Optimizer.StepGroup | python/paddle/distributed/auto_parallel/api.py:611-646 | one group: its clip's pipeline mesh is generated when it collected ids and the flag is clear; its parameters are sharded and optimized; a failure changes nothing |
| ShardOptimizer.Optimizer.StateDict | python/paddle/distributed/auto_parallel/api.py:650-725 | an empty list raises IndexError and changes nothing. Training already started, or some state already distributed: returns at once and changes nothing. Otherwise gradients are faked, `step` runs on them, and the gradients are cleared. For a plain list, on success: the accumulators equal the table after sharding the faked parameters that have gradients, and one optimize call with those parameters is recorded. The flag and the clip's pipeline mesh change as one plain `step` changes them, and the parameters end faked and then cleared. When that step fails with ValueError, the parameters stay faked and the accumulators, calls, flag and mesh are unchanged |
| ShardOptimizer.NewShardOptimizer | python/paddle/distributed/auto_parallel/api.py:504-528 | only AdamW and SGD are accepted (AssertionError otherwise); the new optimizer holds the given list, configuration and rank. It shards the clip iff the clip is a global-norm clip, and starts with the flag clear, an empty accumulator table, no pipeline mesh and no optimize calls |
| DistModelApi.LastValueAbsent | python/paddle/distributed/auto_parallel/api.py:784-793 | an option that no item names keeps its default |
| DistModelApi.LastValueIsLast | python/paddle/distributed/auto_parallel/api.py:784-793 | otherwise the option holds the value of the last item naming it |
| DistModelApi.LastValue | python/paddle/distributed/auto_parallel/api.py:788-793 | an option's value after `setattr` over the items in order: the value of the last item naming it, the default when none does |
| DistModelApi.Applied | python/paddle/distributed/auto_parallel/api.py:784-793 | the three options after the items are applied, each starting `False` |
| DistModelApi.LastValueOfDict | python/paddle/distributed/auto_parallel/api.py:784-793 | in a dictionary every option holds the value stored with it |
| DistModelApi.AppliedSnoc | python/paddle/distributed/auto_parallel/api.py:789-793 | applying one more known item sets exactly that option |
| DistModelApi.NewFusePasses | python/paddle/distributed/auto_parallel/api.py:784-793 | all three options start False. An unknown key raises ValueError; otherwise every option holds its last configured value |
| DistModelApi.NewStrategy | python/paddle/distributed/auto_parallel/api.py:841-874 | a non-dictionary raises ValueError; no config gives empty sections and default fuse passes; a dictionary hands each section to its config and builds the fuse passes from its own section, so an unknown fuse pass raises ValueError |
| DistModelApi.ConvertStrategy | python/paddle/distributed/auto_parallel/api.py:1214-1233 | None stays None. Otherwise the fuse switch is copied, the default pass list is extended by the gemm-epilogue pass and then the dropout-add pass, each only when its option `is True`, and the three sections are copied |
| DistModelApi.ParseMode | python/paddle/distributed/auto_parallel/api.py:1119-1120 | a string is a mode iff it is "train", "eval" or "predict", and the mode's name is that string |
| DistModelApi.ParseModeName | python/paddle/distributed/auto_parallel/api.py:1119-1120 | every mode's name reads back as the mode |
| DistModelApi.PreparedModes | python/paddle/distributed/auto_parallel/api.py:1045-1058 | predict is always prepared, eval iff a loss is given, train iff both loss and optimizer are given |
| DistModelApi.DefaultMode | python/paddle/distributed/auto_parallel/api.py:1060-1066 | train if loss and optimizer are given, else eval if a loss is given, else predict; always a prepared mode |
| DistModelApi.ZipKeys | python/paddle/distributed/auto_parallel/api.py:1212 | the keys of `dict(zip(names, data))` are the names |
| DistModelApi.Zip | python/paddle/distributed/auto_parallel/api.py:1212 | `dict(zip(names, data))`: each name keyed to the datum at its position, a later name overriding an earlier equal one |
| DistModelApi.ZipLast | python/paddle/distributed/auto_parallel/api.py:1212 | a name maps to the datum of its last occurrence |
| DistModelApi.DistModel.constructor | python/paddle/distributed/auto_parallel/api.py:1022-1072 | the strategy is converted, the prepared modes follow the arguments, the mode is the default mode, and the feed cache is empty |
| DistModelApi.DistModel.SwitchMode | python/paddle/distributed/auto_parallel/api.py:1074-1110 | succeeds iff the mode was prepared and then sets it; otherwise raises RuntimeError and keeps the mode; the feed cache is unchanged |
| DistModelApi.DistModel.ValidateMode | python/paddle/distributed/auto_parallel/api.py:1112-1121 | None means the current mode, and ValueError when there is none; a string is accepted iff it is one of the three mode names; every failure is ValueError |
| DistModelApi.DistModel.MakeFeeds | python/paddle/distributed/auto_parallel/api.py:1199-1212 | the mode's feed names are fetched from the engine only when not cached or cached empty. Mismatched lengths raise ValueError; otherwise the result is the names zipped with the data |
| DistModelApi.DistModel.Call | python/paddle/distributed/auto_parallel/api.py:1235-1258 | ValueError without a mode, in train mode without optimizer or loss, and in eval mode without loss. A feed/argument length mismatch also raises ValueError. The three early errors leave the cached feed names alone; otherwise the current mode's feed names are fetched from the engine when none or an empty list is cached, and kept otherwise. Predict mode returns `outputs` and other modes `loss`, each None when the engine returned none |
| DistModelApi.ToStatic | python/paddle/distributed/auto_parallel/api.py:1481-1487 | a sharded optimizer is unwrapped to the optimizer it wraps; the DistModel is built from the arguments |
| DistStateDict.ShapeLoop | python/paddle/distributed/auto_parallel/api.py:1300-1311 | the loop keeps the tensor's rank |
| DistStateDict.ShapeLoopMeaning | python/paddle/distributed/auto_parallel/api.py:1300-1311 | the loop succeeds iff every entry lies in -1..mesh rank-1. Then a mapped dimension is multiplied by its mesh axis extent, and a -1 dimension is unchanged |
| DistStateDict.GlobalShape | python/paddle/distributed/auto_parallel/api.py:1296-1311 | the corrected build: succeeds iff the ranks agree and every entry lies in -1..mesh rank-1, else AssertionError. The global extent is the mesh extent times the local extent for mapped dimensions, and the local extent for -1 |
| DistStateDict.AsWrittenRejectsMeshAxis | python/paddle/distributed/auto_parallel/api.py:1301-1303 | as written, a rank-1 tensor cannot be sharded over axis 1 of a 2x2 mesh; the corrected check accepts it |
| DistStateDict.GlobalShapeAsWritten | python/paddle/distributed/auto_parallel/api.py:1296-1311 | the global shape as the code computes it: AssertionError unless the rank equals the dims-mapping's length and every entry lies in `[-1, local rank)`; IndexError when an entry is no mesh axis; a mapped dimension is scaled by its axis's extent |
| DistStateDict.AsWrittenIndexesPastMesh | python/paddle/distributed/auto_parallel/api.py:1300-1309 | as written, a rank-3 tensor mapped to axis 2 of a one-axis mesh raises IndexError instead of failing the assertion |
| DistStateDict.ShapeLoopAgrees | python/paddle/distributed/auto_parallel/api.py:1301-1311 | whenever the loop bounded by the tensor rank succeeds, the loop bounded by the mesh rank gives the same shape |
| DistStateDict.AsWrittenAgrees | python/paddle/distributed/auto_parallel/api.py:1296-1311 | whenever the code as written succeeds, it computes the corrected shape |
| DistStateDict.ToPlacements | python/paddle/distributed/auto_parallel/api.py:1319 | `to_placements` gives one placement per mesh axis |
| DistStateDict.ToPlacementsShards | python/paddle/distributed/auto_parallel/api.py:1319 | for a mapping without collisions, mesh axis j shards tensor dimension d iff d is mapped to j |
| DistStateDict.ShardFactorSingle | python/paddle/distributed/auto_parallel/api.py:1319-1323 | a dimension sharded by exactly one axis is cut into that axis's extent |
| DistStateDict.LocalShapeRoundTrip | python/paddle/distributed/auto_parallel/api.py:1296-1323 | splitting the rebuilt global shape over the mesh by the rebuilt placements gives back the local shape |
| DistStateDict.Built | python/paddle/distributed/auto_parallel/api.py:1313-1325 | the built tensor has the global shape, a mesh of the record's shape and process group, the placements of the dims-mapping, and the local tensor as its local part |
| DistStateDict.BuildOkWhenWellFormed | python/paddle/distributed/auto_parallel/api.py:1296-1323 | a record whose ranks agree, whose entries are in range and collision-free, and whose process group fills the mesh always rebuilds |
| DistStateDict.BuildDistributedTensor | python/paddle/distributed/auto_parallel/api.py:1287-1325 | succeeds exactly when the checks pass, with the built tensor; fails with AssertionError, or with ValueError when the process group does not fill the mesh |
| DistStateDict.BuildDistributedStateDict | python/paddle/distributed/auto_parallel/api.py:1277-1336 | succeeds iff every local tensor has a record and rebuilds. The result has the same keys, each holding its built tensor |
| DistStateDict.SetStateDict | python/paddle/distributed/auto_parallel/api.py:1338-1353 | fails the assertion unless every value is distributed and, where its key is current, matches the current mesh or placements. On success the program receives every key's local part |
| DistStateDict.OwnStateAccepted | python/paddle/distributed/auto_parallel/api.py:1338-1353 | a state dict of distributed tensors is accepted against itself |
| RpcUtils.Emplace | paddle/fluid/platform/rpc_utils.h:91 | `emplace` adds the key only when absent, keeps an existing value, and leaves other keys alone |
| RpcUtils.AfterRead | paddle/fluid/platform/rpc_utils.h:76-84 | `operator[]` on a missing key inserts the default, and changes nothing else |
| RpcUtils.EmplaceFirstWins | paddle/fluid/platform/rpc_utils.h:86-106 | a second insert for the same id changes nothing |
| RpcUtils.EmplaceAllKeys | paddle/fluid/platform/rpc_utils.h:44-46 | after loading, an id has a word iff it had one or some pair names it |
| RpcUtils.EmplaceAll | paddle/fluid/platform/rpc_utils.h:44-46 | the table after `emplace(id, word)` for every pair in order: an id already present keeps its word |
| RpcUtils.EmplaceAllKeepsOld | paddle/fluid/platform/rpc_utils.h:44-46 | an id already present keeps its word |
| RpcUtils.EmplaceAllFirstWins | paddle/fluid/platform/rpc_utils.h:44-46 | a new id gets the word of its first pair |
| RpcUtils.EmplaceAllTwice | paddle/fluid/platform/rpc_utils.h:37-46 | loading the same pairs again changes nothing |
| RpcUtils.EmplaceAllKeep | paddle/fluid/platform/rpc_utils.h:44-46 | loading pairs whose ids are all present changes nothing |
| RpcUtils.RpcVocabulary.constructor | paddle/fluid/platform/rpc_utils.h:54-56 | the path is empty and the table is empty |
| RpcUtils.RpcVocabulary.Init | paddle/fluid/platform/rpc_utils.h:37-47 | the same path as the stored one is a no-op. Any other path loads every pair in order, first word wins. The path is never updated |
| RpcUtils.RpcVocabulary.Contains | paddle/fluid/platform/rpc_utils.h:49 | true iff the id has a word |
| RpcUtils.RpcVocabulary.Get | paddle/fluid/platform/rpc_utils.h:52 | the id's word; `out_of_range` for an absent id |
| RpcUtils.NextId | paddle/fluid/platform/rpc_utils.h:68-72 | INT32_MAX wraps to 0; any other value steps up by one |
| RpcUtils.NextIdIterMod | paddle/fluid/platform/rpc_utils.h:66-74 | from a non-negative counter, k requests advance it by k modulo 2^31 |
| RpcUtils.ModDistinct | paddle/fluid/platform/rpc_utils.h:66-74 | numbers less than 2^31 apart differ modulo 2^31 |
| RpcUtils.DistinctWithinWindow | paddle/fluid/platform/rpc_utils.h:66-74 | two requests fewer than 2^31 requests apart get different ids |
| RpcUtils.RpcRequestStore.constructor | paddle/fluid/platform/rpc_utils.h:108-114 | the counter starts at 0 and all three maps are empty |
| RpcUtils.RpcRequestStore.GetRequestId | paddle/fluid/platform/rpc_utils.h:66-74 | the counter wraps from INT32_MAX to 0, otherwise it steps up by one. The returned id is the new counter and the maps are unchanged |
| RpcUtils.RpcRequestStore.GetEvent | paddle/fluid/platform/rpc_utils.h:76-78 | the stored event, or null for an unknown id, which is then stored |
| RpcUtils.RpcRequestStore.GetErrorCode | paddle/fluid/platform/rpc_utils.h:80 | true iff a non-zero code is stored; an unknown id reads false and leaves a 0 entry |
| RpcUtils.RpcRequestStore.GetResponse | paddle/fluid/platform/rpc_utils.h:82-84 | the stored response, or "" for an unknown id, which is then stored |
| RpcUtils.RpcRequestStore.InsertEvent | paddle/fluid/platform/rpc_utils.h:86-92 | the event is stored unless the id already has one; other ids and the other maps are unchanged |
| RpcUtils.RpcRequestStore.InsertErrorCode | paddle/fluid/platform/rpc_utils.h:94-99 | the code is stored unless the id already has one; other ids and the other maps are unchanged |
| RpcUtils.RpcRequestStore.InsertResponse | paddle/fluid/platform/rpc_utils.h:101-106 | the response is stored unless the id already has one; other ids and the other maps are unchanged |
| RpcUtils.ReadBeforeInsertKeepsDefault | paddle/fluid/platform/rpc_utils.h:76-106 | reading an id before its insert plants the default, and the later insert is then ignored |
| RpcUtils.ReadAfterInsert | paddle/fluid/platform/rpc_utils.h:76-106 | reading after an insert returns the inserted value and stores nothing new |
| DecoratorTransformer.FindFrom | python/paddle/jit/dy2static/decorator_transformer.py:117 | the first occurrence of the marker at or after the start, or None when there is none |
| DecoratorTransformer.LastClose | python/paddle/jit/dy2static/decorator_transformer.py:117 | the last ')' in the range, or None when there is none |
| DecoratorTransformer.SplitCall | python/paddle/jit/dy2static/decorator_transformer.py:117-119 | the lazy `(.+?)` group is the shortest non-empty name followed by the marker. The greedy `(.*)\)` group runs to the last ')'. None when no such split exists |
| DecoratorTransformer.SplitCallJoined | python/paddle/jit/dy2static/decorator_transformer.py:117-119 | splitting a printed call `name(args)` gives back the name and the arguments, whatever the arguments contain |
| DecoratorTransformer.SplitJst | python/paddle/jit/dy2static/decorator_transformer.py:102-106 | only text starting with `_jst.Call(` is split |
| DecoratorTransformer.DecoStatement | python/paddle/jit/dy2static/decorator_transformer.py:98-132 | a non-call decorator gives `decoed = _jst.Call(full)(target)`. A call decorator gives the try-then-curried statement, whose callee and arguments print back as a prefix of the decorator text. A call text the pattern cannot split fails as `.group` on None. The result name and target are passed through |
| DecoratorTransformer.Source | python/paddle/jit/dy2static/decorator_transformer.py:108-132 | the statement text the three format strings print: `decoed = _jst.Call(full)(target)` for a plain decorator, and otherwise `try:` the call with the target prepended to the arguments, `except:` the curried call. It has no contract of its own; it says what a `DecoStmt` stands for |
| DecoratorTransformer.SplitPrefix | python/paddle/jit/dy2static/decorator_transformer.py:117-127 | the split name and arguments are a prefix of the text, after which no ')' follows |
| DecoratorTransformer.JstPrefix | python/paddle/jit/dy2static/decorator_transformer.py:102-114 | the same for a `_jst.Call(name)(args)` decorator, whose callee is `_jst.Call(name)` |
| DecoratorTransformer.KeptConcat | python/paddle/jit/dy2static/decorator_transformer.py:88-89 | the ignore filter distributes over concatenation |
| DecoratorTransformer.AppliedOrderIsReversedFilter | python/paddle/jit/dy2static/decorator_transformer.py:66-89 | decorators are applied innermost first, skipping the ignored names |
| DecoratorTransformer.AppliedOrderMembers | python/paddle/jit/dy2static/decorator_transformer.py:26-33 | a decorator is applied iff it is in the list and its name is not one of the six ignored names |
| DecoratorTransformer.ContextManagerApplied | python/paddle/jit/dy2static/decorator_transformer.py:90-93 | `contextmanager` only warns; it is still applied |
| DecoratorTransformer.ChainOkIff | python/paddle/jit/dy2static/decorator_transformer.py:66-135 | the chain fails iff some decorator's name does not match the name pattern, or some applied call decorator's text cannot be split |
| DecoratorTransformer.Step | python/paddle/jit/dy2static/decorator_transformer.py:66-135 | one iteration over a decorator: AttributeError when its name does not match; an ignored name changes nothing; otherwise the statement applying it to the current target is appended, and `_decoedby_<name>` becomes both the next target and the last result |
| DecoratorTransformer.ChainOf | python/paddle/jit/dy2static/decorator_transformer.py:66-135 | the loop over the decorators in reverse, innermost first, stopping at the first failure |
| DecoratorTransformer.LinkedSnoc | python/paddle/jit/dy2static/decorator_transformer.py:95-135 | one more decorator statement keeps the chain linked: it applies the next decorator to the previous result |
| DecoratorTransformer.ChainLinks | python/paddle/jit/dy2static/decorator_transformer.py:59-135 | the statements follow the applied decorators one to one. The first target is `_orig_<name>`, each result is `_decoedby_<name>`, and each result is the next target |
| DecoratorTransformer.ChainErrSticks | python/paddle/jit/dy2static/decorator_transformer.py:66-135 | a failure in the inner decorators is the failure of the whole chain |
| DecoratorTransformer.AsNodes | python/paddle/jit/dy2static/decorator_transformer.py:134 | one parsed statement per generated statement, in order |
| DecoratorTransformer.RewriteOkIff | python/paddle/jit/dy2static/decorator_transformer.py:52-156 | the rewrite fails, with AttributeError, iff some decorator's name does not match the name pattern or some applied call decorator's text cannot be split |
| DecoratorTransformer.Rewrite | python/paddle/jit/dy2static/decorator_transformer.py:52-156 | a definition with its children already rewritten: the chain over its decorators, then the rebuilt definition |
| DecoratorTransformer.Built | python/paddle/jit/dy2static/decorator_transformer.py:137-154 | no statements: the definition unchanged, decorators removed; otherwise the body becomes `_orig_<name>`, the statements and the forwarding return |
| DecoratorTransformer.BuiltLaid | python/paddle/jit/dy2static/decorator_transformer.py:140-154 | a linked chain is laid out as the body below |
| DecoratorTransformer.RewriteLayout | python/paddle/jit/dy2static/decorator_transformer.py:137-154 | no applied decorator leaves the body as it was. Otherwise the body is `_orig_<name>` (the old arguments and body, no decorators), the statements in applied order, and `return <last result>(<positional names>)`. The decorator list is always empty |
| DecoratorTransformer.ChainErrIsAttribute | python/paddle/jit/dy2static/decorator_transformer.py:98-127 | every chain failure is an AttributeError |
| DecoratorTransformer.AllIgnoredKeepsBody | python/paddle/jit/dy2static/decorator_transformer.py:56-57 | when every decorator is ignored, the function keeps its body and loses its decorators |
| DecoratorTransformer.TransformedUndecorated | python/paddle/jit/dy2static/decorator_transformer.py:52-156 | after a successful visit no function definition in the tree has a decorator |
| DecoratorTransformer.Transformed | python/paddle/jit/dy2static/decorator_transformer.py:46-156 | the whole transformation of a statement: a definition's body first, then its decorators; any other statement's children; the first failure stops it |
| DecoratorTransformer.TransformedAll | python/paddle/jit/dy2static/decorator_transformer.py:52-54 | `generic_visit` over a list of statements, in order, stopping at the first failure |
| DecoratorTransformer.TransformedAllUndecorated | python/paddle/jit/dy2static/decorator_transformer.py:52-156 | the same for a statement list, which keeps its length |
| DecoratorTransformer.UndecoratedFixed | python/paddle/jit/dy2static/decorator_transformer.py:137-138 | a tree without decorators is left as it is |
| DecoratorTransformer.UndecoratedAllFixed | python/paddle/jit/dy2static/decorator_transformer.py:137-138 | the same for a statement list |
| DecoratorTransformer.TransformIdempotent | python/paddle/jit/dy2static/decorator_transformer.py:52-156 | transforming a transformed tree again changes nothing |
| DecoratorTransformer.AllErrSticks | python/paddle/jit/dy2static/decorator_transformer.py:52-156 | the first failing statement decides the failure of the list |
| DecoratorTransformer.Visit | python/paddle/jit/dy2static/decorator_transformer.py:46-54 | the recursive visit computes the transformed tree |
| DecoratorTransformer.VisitAll | python/paddle/jit/dy2static/decorator_transformer.py:52-54 | visiting a statement list in order computes the transformed list |
| DecoratorTransformer.VisitFunctionDef | python/paddle/jit/dy2static/decorator_transformer.py:52-156 | the loop over the reversed decorators, run after the nested definitions were visited, computes the transformed definition |
| DecoratorTransformer.DecoratorTransformer.constructor | python/paddle/jit/dy2static/decorator_transformer.py:41-44 | the transformer holds the given root |
| DecoratorTransformer.DecoratorTransformer.Transform | python/paddle/jit/dy2static/decorator_transformer.py:46-50 | on success the root becomes its transformed tree; on failure the error is that of the transformation |

## Left out

- The C++ runtime and tensor construction (`paddle.to_tensor`, `paddle.Tensor(...)`, `EagerParamBase.from_tensor`, `core.reshard`, `core.TensorDistAttr`) are foreign calls. Tensors are modelled as shape and distribution metadata only; no tensor data is modelled.
- Helpers from other files are not part of this model. Each is given a body that follows its documented meaning:
  - `get_shard_spec`: the first mesh axis sharding a dimension names it;
  - `convert_to_dims_mapping`: an index lookup of the names;
  - `to_placements`: later dimensions overwrite earlier ones on the same axis;
  - `check_placements_equal`: equality;
  - `shard_tensor_static` and `mark_as_sharding_propagation_skip_op`: reduced to the metadata they record.
- `shard_tensor` in static mode and its `dtype`/`place`/`stop_gradient` handling are left out; only the dynamic branch's metadata is modelled.
- `ProcessMesh` internals: meshes built without names are taken to have the axis names `d0`, `d1`, …, and `np.array(...).reshape(...)` is modelled as the check that the process group fills the mesh.
- The `auto_strategy` configuration classes (sharding, gradient merge, pipeline) are opaque sections that are copied around. The default `fused_passes_list` of the engine's strategy is a parameter.
- `Engine` (`prepare`, `run`, `to_mode`, dataloaders, `dist_main_program` and the other program getters) is the compilation and execution runtime. What the engine hands back (feed lists, run outputs, the program's state dict) is an input.
- Optimizer arithmetic is left out:
  - `_apply_optimize` is recorded as the list of parameters it received;
  - `_create_accumulators` is given by the optimizer's accumulator kinds and shapes;
  - `zeros_like`, and the inner optimizer's `state_dict`, is an input;
  - `clear_grad` is modelled on `grad` only.
- Forward hooks (`input_fn`/`output_fn` of `shard_layer`) and the user's `shard_fn` bodies are opaque functions.
- ShardOptimizer.Optimizer.StateDict: returns whether it created the states instead of the state dictionary itself, which comes from the inner optimizer.
- ShardOptimizer.Optimizer.StateDict: for parameter groups the contract states only the outcome kind and the error, not the new table.
- ShardOptimizer.Optimizer.StepEachGroup: when a later group fails with ValueError, the groups before it stay updated, as in the code; the contract states only that the failing group changes nothing.
- ShardOptimizer.Optimizer.Step: each parameter group is taken to hold its own `grad_clip` object, distinct from the other groups' clips and from the inner optimizer's `_grad_clip`. In the code a clip object shared by several groups has its `_pp_mesh` overwritten by every later group that collects ids; the model gives each group its own copy, so that sharing is not captured.
- ShardOptimizer.Optimizer.StepGroups: takes each group's clip to be its own object, as stated for `Step`; a `_pp_mesh` written through a clip shared with another group or with the inner optimizer is not captured.
- ShardOptimizer.UpdatedGroup: writes the pipeline mesh into the group's own copy of its clip; clips shared between groups are not modelled.
- ShardOptimizer.FakeGrads: parameters are taken to be distinct objects. In the code a parameter listed twice gets its fake gradient at its first occurrence and raises ValueError ("gradient should be None") at its second. The model fakes each entry separately and raises nothing there.
- ShardOptimizer.FakeGroupGrads: the same for a parameter listed twice, or in two groups; that ValueError is not modelled.
- ShardOptimizer.Optimizer.StateDict: inherits the distinct-parameter assumption of `FakeGrads`, so its ValueError cases leave out the repeated parameter.
- Placements.LocalShape: splits every sharded dimension evenly, by floor division by its number of shards. The runtime's uneven split, where some ranks hold one row more, is not modelled.
- DTensor.ShardTensor: the local shape it states is the even split of `Placements.LocalShape`.
- DTensor.FromLocalInverse: relates the local and global shapes through the even split of `Placements.LocalShape`.
- DistStateDict.LocalShapeRoundTrip: the round trip is stated for the even split of `Placements.LocalShape`.
- Placements.ShardSpec: requires at most as many placements as mesh axes. The code has no such check; what `get_shard_spec` does with more placements is not part of this model.
- Reshard.DynamicReshardAttr: requires at most as many placements as mesh axes, through `Placements.ShardSpec`.
- Reshard.Program.StaticReshard: requires at most as many placements as mesh axes, through `Placements.ShardSpec`.
- DistModelApi.NewFusePasses: a key is known only when it is one of the three options. Python's `hasattr` is also true for names the object inherits (`__doc__`, `__module__`, …), which the code then sets; the model raises ValueError for those.
- ShardLayer.ShardLayer: the user's `shard_fn` is taken to change only the layer it is given. A `shard_fn` that rebinds parameters of other sublayers, through a closure, is not modelled.
- ShardLayer.ShardLayerDistributesAll: holds under the same assumption, that `shard_fn` changes only the layer it is given.
- DistStateDict.BuildDistributedStateDict: visits the keys in no particular order rather than the dictionary's insertion order. Only which failing key is met first can differ, and with it whether AssertionError or ValueError is raised; whether it fails does not.
- DistStateDict.SetStateDict: checks the keys in no particular order rather than the dictionary's insertion order. Only which failing key is met first can differ; the error is the same.
- `hasattr`/`isinstance` checks are modelled by datatype variants. Python's negative dimension indices in `Shard(dim)` are not modelled.
- `LOG(WARNING)` and `warnings.warn` are output only. The mutex in `GetRequestId` and the `CountdownEvent` waits are left out, so the stores are modelled sequentially.
- RpcUtils.RpcVocabulary.Init: the file stream is an input sequence of (word, id) pairs; a read that fails ends that sequence.
- The RPC ops (`rpc_call_op`, `rpc_result_op`) and the CINN group scheduler are network, device and scheduling code outside this model. The test scripts use floating-point numerics and a live endpoint and are not part of this model.
- The regular expressions built from `RE_PYNAME`/`RE_PYMODULE` that extract a decorator's name are not part of this model. Their outcome is an input: the name, or None when the pattern does not match (the code then raises AttributeError, and so does the model). `gast.parse` and `ast_to_source_code` are not modelled: generated statements are kept structured, and decorator text is one line (`.` does not match a newline).
- DecoratorTransformer.DecoratorTransformer.Transform: a failure part-way through leaves the tree partly rewritten in the code; the model keeps the old root on failure.
- DecoratorTransformer.VisitFunctionDef: forwards only the positional parameter names to the final call, as the code does; keyword-only and variadic parameters are not forwarded.

## Findings

| source | as written | input that shows it | evidently intended | confidence | as-written member | corrected member |
|---|---|---|---|---|---|---|
| python/paddle/distributed/auto_parallel/api.py:1301-1303 | `build_distributed_tensor` asserts `-1 <= dim < len(local_tensor.shape)` for every dims-mapping entry, bounding a mesh axis index by the tensor's rank | local shape `[4]`, process shape `[2, 2]`, dims-mapping `[1]` fails the assertion although axis 1 exists. Local shape `[4, 4, 4]`, process shape `[2]`, dims-mapping `[2, -1, -1]` passes it and then indexes `process_shape[2]` (IndexError) | bound each entry by the mesh rank `len(process_shape)`: the first input then gives global shape `[8]`, and the second fails the assertion | not executed | DistStateDict.AsWrittenRejectsMeshAxis | DistStateDict.GlobalShape |
