/**
 * Construction of distributed tensors: `shard_tensor`, its inverse
 * `dtensor_from_local`, and `dtensor_from_fn`.
 */
module DTensor {
  import opened Common
  import opened Placements

  /** Eager (dynamic) mode or graph (static) mode. */
  datatype ExecMode = Dynamic | Static

  /** `shard_tensor` in dynamic mode: the data becomes a distributed tensor of
      the same global shape with the requested mesh and placements; its local
      shard is the runtime's split. */
  function ShardTensor(data: Tensor, mesh: ProcessMesh, placements: seq<Placement>): (r: Tensor)
    ensures r.IsDist() && r.shape == data.shape
    ensures r.dist.value.mesh == mesh && r.dist.value.placements == placements
    ensures LocalValue(r).shape == LocalShape(data.shape, mesh.shape, placements)
  {
    Tensor(data.shape, Some(DistInfo(mesh, placements, None)))
  }

  /** The global shape `dtensor_from_local` computes, or IndexError when a
      Shard names a tensor dimension past the local rank or a mesh axis the
      mesh does not have. */
  function FromLocalShape(local: seq<nat>, meshShape: seq<nat>, placements: seq<Placement>): Result<seq<nat>>
  {
    if exists i :: 0 <= i < |placements| && placements[i].Shard? &&
         (placements[i].dim >= |local| || i >= |meshShape|)
    then Err(IndexError)
    else Ok(seq(|local|, d requires 0 <= d < |local| => local[d] * ShardFactor(meshShape, placements, d)))
  }

  /** Shape after the loop has visited the first `n` placements. */
  function ShapeAfter(local: seq<nat>, meshShape: seq<nat>, placements: seq<Placement>, n: nat): (r: seq<nat>)
    requires n <= |placements|
    ensures |r| == |local|
  {
    seq(|local|, d requires 0 <= d < |local| => local[d] * ShardFactor(meshShape, placements[..n], d))
  }

  /** `dtensor_from_local`: builds the global dims in place from the local
      shape, multiplying dimension `shard_dim` by `mesh.shape[idx]` for every
      placement `idx` that is `Shard(shard_dim)`. */
  method DTensorFromLocal(local: Tensor, mesh: ProcessMesh, placements: seq<Placement>) returns (r: Result<Tensor>)
    ensures r.Err? <==> FromLocalShape(local.shape, mesh.shape, placements).Err?
    ensures r.Err? ==> r.error == IndexError
    ensures r.Ok? ==>
      && |r.value.shape| == |local.shape|
      && (forall d :: 0 <= d < |local.shape| ==>
            r.value.shape[d] == local.shape[d] * ShardFactor(mesh.shape, placements, d))
      && r.value.dist == Some(DistInfo(mesh, placements, Some(local)))
  {
    var globalDims := local.shape;
    var idx := 0;
    while idx < |placements|
      invariant 0 <= idx <= |placements|
      invariant forall i :: 0 <= i < idx && placements[i].Shard? ==>
                  placements[i].dim < |local.shape| && i < |mesh.shape|
      invariant globalDims == ShapeAfter(local.shape, mesh.shape, placements, idx)
    {
      var p := placements[idx];
      assert placements[..idx + 1][..idx] == placements[..idx];
      if p.Shard? {
        var shardDim := p.dim;
        if shardDim >= |globalDims| || idx >= |mesh.shape| {
          return Err(IndexError);
        }
        var localDimSize := globalDims[shardDim];
        globalDims := globalDims[shardDim := localDimSize * mesh.shape[idx]];
      }
      assert globalDims == ShapeAfter(local.shape, mesh.shape, placements, idx + 1) by {
        forall d | 0 <= d < |local.shape|
          ensures globalDims[d] == local.shape[d] * ShardFactor(mesh.shape, placements[..idx + 1], d)
        {
          calc {
            local.shape[d] * ShardFactor(mesh.shape, placements[..idx + 1], d);
            local.shape[d] * (ShardFactor(mesh.shape, placements[..idx], d)
              * (if p == Shard(d) && idx < |mesh.shape| then mesh.shape[idx] else 1));
            (local.shape[d] * ShardFactor(mesh.shape, placements[..idx], d))
              * (if p == Shard(d) && idx < |mesh.shape| then mesh.shape[idx] else 1);
          }
        }
      }
      idx := idx + 1;
    }
    assert placements[..|placements|] == placements;
    return Ok(Tensor(globalDims, Some(DistInfo(mesh, placements, Some(local)))));
  }

  /** Inverse property: the local shard of the tensor `dtensor_from_local`
      builds is the input, unchanged, and splitting its global shape evenly
      over the mesh gives back the local shape. */
  lemma FromLocalInverse(local: Tensor, mesh: ProcessMesh, placements: seq<Placement>, global: Tensor)
    requires forall k :: 0 <= k < |mesh.shape| ==> mesh.shape[k] > 0
    requires |global.shape| == |local.shape|
    requires forall d :: 0 <= d < |local.shape| ==>
               global.shape[d] == local.shape[d] * ShardFactor(mesh.shape, placements, d)
    requires global.dist == Some(DistInfo(mesh, placements, Some(local)))
    ensures LocalValue(global) == local
    ensures LocalShape(global.shape, mesh.shape, placements) == local.shape
  {
    forall d | 0 <= d < |local.shape|
      ensures LocalShape(global.shape, mesh.shape, placements)[d] == local.shape[d]
    {
      var f := ShardFactor(mesh.shape, placements, d);
      ShardFactorPositive(mesh.shape, placements, d);
      assert global.shape[d] == local.shape[d] * f;
      MulDivCancel(local.shape[d], f);
    }
  }

  /** Shapes with no Shard placement keep their extents: the global shape of a
      replicated or partial tensor is its local shape. */
  lemma FromLocalUnsharded(local: seq<nat>, meshShape: seq<nat>, placements: seq<Placement>)
    requires forall i :: 0 <= i < |placements| ==> !placements[i].Shard?
    ensures FromLocalShape(local, meshShape, placements) == Ok(local)
  {
    forall d | 0 <= d < |local| ensures ShardFactor(meshShape, placements, d) == 1 {
      ShardFactorUnsharded(meshShape, placements, d);
    }
    var g := seq(|local|, d requires 0 <= d < |local| => local[d] * ShardFactor(meshShape, placements, d));
    assert g == local;
  }

  /** `dtensor_from_fn(fn, mesh, placements, *args)`: the tensor `fn` returns,
      sharded with `shard_tensor` (dynamic mode). */
  function DTensorFromFn<A>(fn: A -> Tensor, mesh: ProcessMesh, placements: seq<Placement>, args: A): (r: Tensor)
    ensures r.shape == fn(args).shape
    ensures r.dist == Some(DistInfo(mesh, placements, None))
  {
    ShardTensor(fn(args), mesh, placements)
  }
}
