/**
 * Placement metadata of the auto-parallel API: the process mesh, the three
 * placement kinds and the metadata view of a (possibly distributed) tensor.
 * Tensor data is never modelled, only shapes and distribution attributes.
 */
module Placements {
  import opened Common

  /** An N-dimensional grid of process ids with named axes. */
  datatype ProcessMesh = ProcessMesh(shape: seq<nat>, processIds: seq<int>, dimNames: seq<string>)

  /** How one mesh axis distributes the tensor. */
  datatype Placement = Shard(dim: nat) | Replicate | Partial

  /** The distribution of a distributed tensor. `local` holds the local shard
      when the tensor was built from one (`dtensor_from_local`); otherwise the
      runtime derives it (see LocalShape). */
  datatype DistInfo = DistInfo(mesh: ProcessMesh, placements: seq<Placement>, local: Option<Tensor>)

  /** A tensor seen as metadata: its global shape and, when it is a
      distributed tensor, its distribution. */
  datatype Tensor = Tensor(shape: seq<nat>, dist: Option<DistInfo>) {
    predicate IsDist() { dist.Some? }
  }

  function MeshRank(mesh: ProcessMesh): nat { |mesh.shape| }

  /** `[Replicate() for _ in range(n)]`. */
  function AllReplicate(n: nat): (r: seq<Placement>)
    ensures |r| == n && forall i :: 0 <= i < n ==> r[i] == Replicate
  {
    Repeat(Replicate, n)
  }

  /** The number of pieces tensor dimension `d` is cut into: the product of
      `meshShape[i]` over every mesh axis `i` whose placement is `Shard(d)`
      (axes beyond the mesh's rank contribute nothing). */
  function ShardFactor(meshShape: seq<nat>, placements: seq<Placement>, d: nat): nat
  {
    if placements == [] then 1
    else
      var i := |placements| - 1;
      ShardFactor(meshShape, placements[..i], d)
        * (if placements[i] == Shard(d) && i < |meshShape| then meshShape[i] else 1)
  }

  lemma {:induction false} ShardFactorPositive(meshShape: seq<nat>, placements: seq<Placement>, d: nat)
    requires forall k :: 0 <= k < |meshShape| ==> meshShape[k] > 0
    ensures ShardFactor(meshShape, placements, d) > 0
  {
    if placements != [] {
      ShardFactorPositive(meshShape, placements[..|placements| - 1], d);
    }
  }

  /** A dimension no placement shards is cut into one piece. */
  lemma {:induction false} ShardFactorUnsharded(meshShape: seq<nat>, placements: seq<Placement>, d: nat)
    requires forall i :: 0 <= i < |placements| ==> placements[i] != Shard(d)
    ensures ShardFactor(meshShape, placements, d) == 1
  {
    if placements != [] {
      ShardFactorUnsharded(meshShape, placements[..|placements| - 1], d);
    }
  }

  /** Local shape the runtime gives a tensor of global shape `shape`
      distributed as `placements` on a mesh of shape `meshShape`
      (even division along every sharded dimension). */
  function LocalShape(shape: seq<nat>, meshShape: seq<nat>, placements: seq<Placement>): (r: seq<nat>)
    ensures |r| == |shape|
  {
    seq(|shape|, d requires 0 <= d < |shape| =>
      var f := ShardFactor(meshShape, placements, d);
      if f == 0 then 0 else shape[d] / f)
  }

  /** `_local_value()` of a tensor: the wrapped local shard when there is one,
      the runtime's even split otherwise, the tensor itself when it is dense. */
  function LocalValue(t: Tensor): Tensor
  {
    match t.dist
    case None => t
    case Some(info) =>
      match info.local
      case Some(l) => l
      case None => Tensor(LocalShape(t.shape, info.mesh.shape, info.placements), None)
  }

  /** Index of the first mesh axis whose placement is `Shard(d)`, if any. */
  function FirstShardAxis(placements: seq<Placement>, d: nat): (r: Option<nat>)
    ensures r.Some? ==> (r.value < |placements| && placements[r.value] == Shard(d)
      && forall j :: 0 <= j < r.value ==> placements[j] != Shard(d))
    ensures r.None? ==> forall j :: 0 <= j < |placements| ==> placements[j] != Shard(d)
  {
    if placements == [] then None
    else if placements[0] == Shard(d) then Some(0)
    else match FirstShardAxis(placements[1..], d)
      case None => None
      case Some(k) => Some(k + 1)
  }

  /** The sharding spec (`get_shard_spec`): for each tensor dimension, the
      name of the first mesh axis that shards it, or None. */
  function ShardSpec(mesh: ProcessMesh, placements: seq<Placement>, ndim: nat): (r: seq<Option<string>>)
    requires |placements| <= |mesh.dimNames|
    ensures |r| == ndim
  {
    seq(ndim, d requires 0 <= d < ndim =>
      match FirstShardAxis(placements, d)
      case None => None
      case Some(i) => Some(mesh.dimNames[i]))
  }

  /** Mesh axis names are pairwise distinct (a ProcessMesh invariant). */
  predicate DistinctNames(names: seq<string>)
  {
    forall i, j :: 0 <= i < j < |names| ==> names[i] != names[j]
  }
}
