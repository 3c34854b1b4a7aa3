/**
 * DistModel's distributed state dict. `_build_distributed_state_dict` turns
 * every local tensor of the program's state dict into a distributed tensor
 * of the global shape its variable's dims-mapping describes
 * (`build_distributed_tensor`); `set_state_dict` checks the distributed
 * tensors it is given against the current ones and keeps their local parts.
 * Only shapes and distribution metadata are modelled, never tensor data.
 */
module DistStateDict {
  import opened Common
  import opened Placements
  import opened DTensor

  /** The distribution record of one variable of the distributed program:
      `process_shape`, `process_group` and `dims_mapping`. */
  datatype VarDistAttr = VarDistAttr(processShape: seq<nat>, processGroup: seq<int>, dimsMapping: seq<int>)

  // ---------------------------------------------------------------------
  // the global-shape loop

  /** The global shape after the first `n` iterations of the loop over the
      dims-mapping, whose range assertion admits entries in `[-1, bound)`:
      AssertionError for an entry outside that range, IndexError when a
      mapped entry is no axis of `processShape`; a mapped dimension is
      scaled by the extent of its mesh axis. */
  function ShapeLoop(local: seq<nat>, processShape: seq<nat>, dm: seq<int>, bound: int, n: nat): (r: Result<seq<nat>>)
    requires n <= |dm| == |local|
    ensures r.Ok? ==> |r.value| == |local|
  {
    if n == 0 then Ok(local)
    else match ShapeLoop(local, processShape, dm, bound, n - 1)
      case Err(e) => Err(e)
      case Ok(g) =>
        var i := n - 1;
        if !(-1 <= dm[i] < bound) then Err(AssertionError)
        else if dm[i] == -1 then Ok(g)
        else if dm[i] >= |processShape| then Err(IndexError)
        else Ok(g[i := processShape[dm[i]] * local[i]])
  }

  /** `build_distributed_tensor`'s global shape as written: the rank check,
      then the loop whose assertion bounds each entry by the rank of the
      LOCAL TENSOR. */
  function GlobalShapeAsWritten(local: seq<nat>, processShape: seq<nat>, dm: seq<int>): Result<seq<nat>>
  {
    if |local| != |dm| then Err(AssertionError)
    else ShapeLoop(local, processShape, dm, |local|, |dm|)
  }

  /** The loop with the entries bounded by the rank of the mesh. */
  lemma {:induction false} ShapeLoopMeaning(local: seq<nat>, processShape: seq<nat>, dm: seq<int>, n: nat)
    requires n <= |dm| == |local|
    ensures var r := ShapeLoop(local, processShape, dm, |processShape|, n);
      && (r.Ok? <==> forall i :: 0 <= i < n ==> -1 <= dm[i] < |processShape|)
      && (r.Err? ==> r.error == AssertionError)
      && (r.Ok? ==> forall i :: 0 <= i < |local| ==>
            r.value[i] == (if i < n && 0 <= dm[i] < |processShape| then processShape[dm[i]] * local[i] else local[i]))
  {
    if n > 0 {
      ShapeLoopMeaning(local, processShape, dm, n - 1);
    }
  }

  /** The global shape with the range assertion bounding each entry by the
      rank of the mesh, as its message and the indexing of `process_shape`
      call for: AssertionError on a rank mismatch or an entry outside
      `[-1, mesh rank)`; otherwise a dimension mapped to mesh axis `m` is
      `process_shape[m]` times its local extent and an unmapped one keeps it. */
  function GlobalShape(local: seq<nat>, processShape: seq<nat>, dm: seq<int>): (r: Result<seq<nat>>)
    ensures r.Ok? <==> |local| == |dm| && forall i :: 0 <= i < |dm| ==> -1 <= dm[i] < |processShape|
    ensures r.Err? ==> r.error == AssertionError
    ensures r.Ok? ==> |r.value| == |local| && forall i :: 0 <= i < |local| ==>
      r.value[i] == (if dm[i] == -1 then local[i] else processShape[dm[i]] * local[i])
  {
    if |local| != |dm| then Err(AssertionError)
    else
      ShapeLoopMeaning(local, processShape, dm, |dm|);
      ShapeLoop(local, processShape, dm, |processShape|, |dm|)
  }

  /** Tensor dimension 0 sharded over mesh axis 1 of a 2x2 mesh: the code as
      written fails its assertion because 1 is not below the tensor's rank,
      although the mesh has that axis; the corrected bound accepts it. */
  lemma AsWrittenRejectsMeshAxis()
    ensures GlobalShapeAsWritten([4], [2, 2], [1]) == Err(AssertionError)
    ensures GlobalShape([4], [2, 2], [1]) == Ok([8])
  {
    assert ShapeLoop([4], [2, 2], [1], 2, 1) == Ok([4][0 := 2 * 4]);
    assert [4][0 := 2 * 4] == [8];
  }

  /** A rank-3 tensor mapped to axis 2 of a one-axis mesh: the code as
      written passes its assertion and then indexes `process_shape` out of
      range; the corrected bound reports the bad entry. */
  lemma AsWrittenIndexesPastMesh()
    ensures GlobalShapeAsWritten([4, 4, 4], [2], [2, -1, -1]) == Err(IndexError)
    ensures GlobalShape([4, 4, 4], [2], [2, -1, -1]) == Err(AssertionError)
  {
    assert ShapeLoop([4, 4, 4], [2], [2, -1, -1], 3, 1) == Err(IndexError);
    assert ShapeLoop([4, 4, 4], [2], [2, -1, -1], 3, 2) == Err(IndexError);
  }

  /** Whenever the code as written succeeds it computes the corrected shape:
      the wrong bound only rejects inputs, it never changes a result. */
  lemma {:induction false} ShapeLoopAgrees(local: seq<nat>, processShape: seq<nat>, dm: seq<int>, n: nat)
    requires n <= |dm| == |local|
    requires ShapeLoop(local, processShape, dm, |local|, n).Ok?
    ensures ShapeLoop(local, processShape, dm, |processShape|, n) == ShapeLoop(local, processShape, dm, |local|, n)
  {
    if n > 0 {
      ShapeLoopAgrees(local, processShape, dm, n - 1);
    }
  }

  lemma AsWrittenAgrees(local: seq<nat>, processShape: seq<nat>, dm: seq<int>)
    requires GlobalShapeAsWritten(local, processShape, dm).Ok?
    ensures GlobalShape(local, processShape, dm) == GlobalShapeAsWritten(local, processShape, dm)
  {
    ShapeLoopAgrees(local, processShape, dm, |dm|);
  }

  // ---------------------------------------------------------------------
  // placements of the rebuilt tensor

  /** `to_placements(dims_mapping, mesh)`: every mesh axis starts
      Replicate; tensor dimension `i` mapped to axis `m` makes axis `m`
      `Shard(i)` (a later dimension overwriting an earlier one). */
  function ToPlacements(dm: seq<int>, meshRank: nat): (r: seq<Placement>)
    ensures |r| == meshRank
  {
    if dm == [] then AllReplicate(meshRank)
    else
      var n := |dm| - 1;
      var p := ToPlacements(dm[..n], meshRank);
      if 0 <= dm[n] < meshRank then p[dm[n] := Shard(n)] else p
  }

  /** No two tensor dimensions are mapped to the same mesh axis. */
  predicate Injective(dm: seq<int>)
  {
    forall a, b :: 0 <= a < b < |dm| && dm[a] >= 0 ==> dm[a] != dm[b]
  }

  /** For a dims-mapping without collisions, mesh axis `j` shards tensor
      dimension `d` exactly when `d` is mapped to `j`. */
  lemma {:induction false} ToPlacementsShards(dm: seq<int>, meshRank: nat, j: nat, d: nat)
    requires j < meshRank && Injective(dm)
    ensures ToPlacements(dm, meshRank)[j] == Shard(d) <==> d < |dm| && dm[d] == j
  {
    if dm != [] {
      var n := |dm| - 1;
      assert forall x :: 0 <= x < n ==> dm[..n][x] == dm[x];
      ToPlacementsShards(dm[..n], meshRank, j, d);
    }
  }

  /** A dimension sharded by exactly one mesh axis is cut into as many pieces
      as that axis has processes. */
  lemma {:induction false} ShardFactorSingle(meshShape: seq<nat>, placements: seq<Placement>, d: nat, j: nat)
    requires j < |placements| && j < |meshShape| && placements[j] == Shard(d)
    requires forall k :: 0 <= k < |placements| && k != j ==> placements[k] != Shard(d)
    ensures ShardFactor(meshShape, placements, d) == meshShape[j]
  {
    var n := |placements| - 1;
    var front := placements[..n];
    if j == n {
      ShardFactorUnsharded(meshShape, front, d);
    } else {
      ShardFactorSingle(meshShape, front, d, j);
    }
  }

  /** Splitting the rebuilt global shape over the mesh gives back the local
      shape, when every mesh axis has processes and no two dimensions share
      an axis: the final shape assertion of `build_distributed_tensor` then
      always holds. */
  lemma LocalShapeRoundTrip(local: seq<nat>, processShape: seq<nat>, dm: seq<int>)
    requires GlobalShape(local, processShape, dm).Ok?
    requires forall k :: 0 <= k < |processShape| ==> processShape[k] > 0
    requires Injective(dm)
    ensures LocalShape(GlobalShape(local, processShape, dm).value, processShape,
                       ToPlacements(dm, |processShape|)) == local
  {
    var global := GlobalShape(local, processShape, dm).value;
    var p := ToPlacements(dm, |processShape|);
    forall d | 0 <= d < |local| ensures LocalShape(global, processShape, p)[d] == local[d] {
      if dm[d] == -1 {
        forall k | 0 <= k < |p| ensures p[k] != Shard(d) {
          ToPlacementsShards(dm, |processShape|, k, d);
        }
        ShardFactorUnsharded(processShape, p, d);
      } else {
        var j := dm[d];
        forall k | 0 <= k < |p| ensures p[k] == Shard(d) <==> k == j {
          ToPlacementsShards(dm, |processShape|, k, d);
        }
        ShardFactorSingle(processShape, p, d, j);
        MulDivCancel(local[d], processShape[j]);
      }
    }
  }

  // ---------------------------------------------------------------------
  // build_distributed_tensor

  /** The names a ProcessMesh built without names gives its axes: d0, d1, ... */
  function AxisNames(n: nat): seq<string>
  {
    seq(n, i requires 0 <= i < n => "d" + NatToString(i))
  }

  function NatToString(n: nat): string
  {
    if n < 10 then [DigitChar(n)] else NatToString(n / 10) + [DigitChar(n % 10)]
  }

  function DigitChar(d: nat): char
    requires d < 10
  {
    "0123456789"[d]
  }

  /** `ProcessMesh(np.array(process_group).reshape(process_shape))`. */
  function MeshOf(attr: VarDistAttr): ProcessMesh
  {
    ProcessMesh(attr.processShape, attr.processGroup, AxisNames(|attr.processShape|))
  }

  /** `build_distributed_tensor` succeeds: the shape checks pass, the process
      group fills the mesh shape (numpy's reshape), and the local part of
      the rebuilt tensor has the local tensor's shape. */
  predicate BuildOk(local: seq<nat>, attr: VarDistAttr)
  {
    && GlobalShape(local, attr.processShape, attr.dimsMapping).Ok?
    && Product(attr.processShape) == |attr.processGroup|
    && LocalShape(GlobalShape(local, attr.processShape, attr.dimsMapping).value, attr.processShape,
                  ToPlacements(attr.dimsMapping, |attr.processShape|)) == local
  }

  /** The distributed tensor `build_distributed_tensor` returns. */
  function Built(local: seq<nat>, attr: VarDistAttr): (t: Tensor)
    requires BuildOk(local, attr)
    ensures |t.shape| == |local| && forall i :: 0 <= i < |local| ==>
      t.shape[i] == (if attr.dimsMapping[i] == -1 then local[i]
                     else attr.processShape[attr.dimsMapping[i]] * local[i])
    ensures t.IsDist() && t.dist.value.mesh.shape == attr.processShape
    ensures t.dist.value.mesh.processIds == attr.processGroup
    ensures t.dist.value.placements == ToPlacements(attr.dimsMapping, |attr.processShape|)
    ensures LocalValue(t).shape == local
  {
    var global := GlobalShape(local, attr.processShape, attr.dimsMapping).value;
    ShardTensor(Tensor(global, None), MeshOf(attr), ToPlacements(attr.dimsMapping, |attr.processShape|))
  }

  /** A well-formed record always rebuilds: every dims-mapping entry names an
      axis of the mesh or is -1, no two dimensions share an axis, every axis
      has processes and the group fills the mesh. */
  lemma BuildOkWhenWellFormed(local: seq<nat>, attr: VarDistAttr)
    requires |local| == |attr.dimsMapping|
    requires forall i :: 0 <= i < |local| ==> -1 <= attr.dimsMapping[i] < |attr.processShape|
    requires Injective(attr.dimsMapping)
    requires forall k :: 0 <= k < |attr.processShape| ==> attr.processShape[k] > 0
    requires Product(attr.processShape) == |attr.processGroup|
    ensures BuildOk(local, attr)
  {
    LocalShapeRoundTrip(local, attr.processShape, attr.dimsMapping);
  }

  /** `build_distributed_tensor(local_tensor, dist_attr)`, with the range
      assertion bounded by the mesh rank. The global shape is computed in
      place, starting from the local shape; then the mesh is built (ValueError
      when the group does not fill it), the zero tensor of the global shape
      is sharded, and its local part must have the local shape. */
  method BuildDistributedTensor(local: seq<nat>, attr: VarDistAttr) returns (r: Result<Tensor>)
    ensures r.Ok? <==> BuildOk(local, attr)
    ensures r.Err? ==> r.error == AssertionError || r.error == ValueError
    ensures r.Ok? ==> r.value == Built(local, attr)
  {
    var dm, ps := attr.dimsMapping, attr.processShape;
    if |local| != |dm| {
      return Err(AssertionError);
    }
    var global := local;
    var i := 0;
    ShapeLoopMeaning(local, ps, dm, |dm|);
    while i < |dm|
      invariant 0 <= i <= |dm|
      invariant ShapeLoop(local, ps, dm, |ps|, i) == Ok(global)
    {
      var dim := dm[i];
      if !(-1 <= dim < |ps|) {
        return Err(AssertionError);
      }
      if dim >= 0 {
        global := global[i := ps[dim] * local[i]];
      }
      i := i + 1;
    }
    if Product(ps) != |attr.processGroup| {
      return Err(ValueError);
    }
    var mesh := MeshOf(attr);
    var placements := ToPlacements(dm, |ps|);
    var t := ShardTensor(Tensor(global, None), mesh, placements);
    if LocalValue(t).shape != local {
      return Err(AssertionError);
    }
    r := Ok(t);
  }

  /** The loop of `_build_distributed_state_dict` over the local state dict:
      AssertionError for a variable without a distribution record, otherwise
      each local tensor rebuilt under the same name. */
  method BuildDistributedStateDict(local: map<string, seq<nat>>, attrs: map<string, VarDistAttr>)
    returns (r: Result<map<string, Tensor>>)
    ensures r.Ok? <==> forall n :: n in local ==> n in attrs && BuildOk(local[n], attrs[n])
    ensures r.Err? ==> r.error == AssertionError || r.error == ValueError
    ensures r.Ok? ==> r.value.Keys == local.Keys
    ensures r.Ok? ==> forall n :: n in local ==> r.value[n] == Built(local[n], attrs[n])
  {
    var global: map<string, Tensor> := map[];
    var todo := local.Keys;
    while todo != {}
      invariant todo <= local.Keys
      invariant global.Keys == local.Keys - todo
      invariant forall n :: n in global ==> n in attrs && BuildOk(local[n], attrs[n])
      invariant forall n :: n in global ==> global[n] == Built(local[n], attrs[n])
      decreases todo
    {
      var name :| name in todo;
      if name !in attrs {
        return Err(AssertionError);
      }
      var t := BuildDistributedTensor(local[name], attrs[name]);
      if t.Err? {
        return Err(t.error);
      }
      global := global[name := t.value];
      todo := todo - {name};
    }
    r := Ok(global);
  }

  // ---------------------------------------------------------------------
  // set_state_dict

  /** `t.process_mesh` (None for a dense tensor). */
  function MeshOfTensor(t: Tensor): Option<ProcessMesh>
  {
    if t.IsDist() then Some(t.dist.value.mesh) else None
  }

  /** `t.placements` (None for a dense tensor). */
  function PlacementsOf(t: Tensor): Option<seq<Placement>>
  {
    if t.IsDist() then Some(t.dist.value.placements) else None
  }

  /** The check `set_state_dict` applies to a value whose key is in the
      current state dict: the same mesh, or equal placements. */
  predicate Matches(v: Tensor, cur: Tensor)
  {
    MeshOfTensor(v) == MeshOfTensor(cur) || PlacementsOf(v) == PlacementsOf(cur)
  }

  /** Every value is distributed and matches the current value of its key. */
  predicate Acceptable(state: map<string, Tensor>, current: map<string, Tensor>)
  {
    forall k :: k in state ==> state[k].IsDist() && (k in current ==> Matches(state[k], current[k]))
  }

  /** `set_state_dict(state_dict)` up to the hand-over to the program:
      AssertionError for a value that is not distributed or that matches
      the current value of its key in neither mesh nor placements;
      otherwise the local parts, keyed as given, are what the program
      receives. */
  method SetStateDict(state: map<string, Tensor>, current: map<string, Tensor>)
    returns (r: Result<map<string, Tensor>>)
    ensures r.Ok? <==> Acceptable(state, current)
    ensures r.Err? ==> r.error == AssertionError
    ensures r.Ok? ==> r.value.Keys == state.Keys
    ensures r.Ok? ==> forall k :: k in state ==> r.value[k] == LocalValue(state[k])
  {
    var localState: map<string, Tensor> := map[];
    var todo := state.Keys;
    while todo != {}
      invariant todo <= state.Keys
      invariant localState.Keys == state.Keys - todo
      invariant forall k :: k in localState ==>
        state[k].IsDist() && (k in current ==> Matches(state[k], current[k]))
      invariant forall k :: k in localState ==> localState[k] == LocalValue(state[k])
      decreases todo
    {
      var k :| k in todo;
      var v := state[k];
      if !v.IsDist() {
        return Err(AssertionError);
      }
      if k in current {
        var cur := current[k];
        if !(MeshOfTensor(v) == MeshOfTensor(cur) || PlacementsOf(v) == PlacementsOf(cur)) {
          return Err(AssertionError);
        }
      }
      localState := localState[k := LocalValue(v)];
      todo := todo - {k};
    }
    r := Ok(localState);
  }

  /** Setting the state dict a DistModel just returned is always accepted:
      every rebuilt tensor is distributed and matches itself. */
  lemma OwnStateAccepted(state: map<string, Tensor>)
    requires forall k :: k in state ==> state[k].IsDist()
    ensures Acceptable(state, state)
  {
  }
}
