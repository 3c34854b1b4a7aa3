/**
 * `shard_layer(layer, process_mesh, shard_fn)`: every parameter and buffer of
 * every sublayer that is not yet distributed is replaced, in place, by a
 * replicated distributed tensor; those a user `shard_fn` already distributed
 * are kept.
 */
module ShardLayer {
  import opened Common
  import opened Placements
  import opened DistAttrs
  import opened DTensor

  /** The entries of a layer's `_parameters` or `_buffers` dictionary. */
  type Slots = map<string, Option<Tensor>>

  /** One entry after `replicate_layer_params_and_buffers`: a tensor that is
      not distributed becomes `shard_tensor(t, mesh, [Replicate()] * rank)`;
      None and distributed tensors are left as they are. */
  function Replicated(entry: Option<Tensor>, mesh: ProcessMesh): (r: Option<Tensor>)
    ensures entry.None? ==> r.None?
    ensures entry.Some? && entry.value.IsDist() ==> r == entry
    ensures entry.Some? && !entry.value.IsDist() ==>
      && r.Some? && r.value.shape == entry.value.shape
      && r.value.dist == Some(DistInfo(mesh, AllReplicate(|entry.value.shape|), None))
  {
    match entry
    case None => None
    case Some(t) =>
      if t.IsDist() then entry
      else Some(ShardTensor(t, mesh, AllReplicate(|t.shape|)))
  }

  /** The whole dictionary after replication. */
  function ReplicateAll(m: Slots, mesh: ProcessMesh): (r: Slots)
    ensures r.Keys == m.Keys
    ensures forall k :: k in m ==> r[k] == Replicated(m[k], mesh)
  {
    map k | k in m :: Replicated(m[k], mesh)
  }

  /** Afterwards every non-None entry is distributed. */
  lemma ReplicateAllDistributes(m: Slots, mesh: ProcessMesh)
    ensures forall k :: k in ReplicateAll(m, mesh) && ReplicateAll(m, mesh)[k].Some? ==>
              ReplicateAll(m, mesh)[k].value.IsDist()
  {
    forall k | k in ReplicateAll(m, mesh) && ReplicateAll(m, mesh)[k].Some?
      ensures ReplicateAll(m, mesh)[k].value.IsDist()
    {
      assert ReplicateAll(m, mesh)[k] == Replicated(m[k], mesh);
    }
  }

  /** Re-applying is a no-op: replication is idempotent, whatever the mesh of
      the second application. */
  lemma ReplicateAllIdempotent(m: Slots, mesh: ProcessMesh, mesh2: ProcessMesh)
    ensures ReplicateAll(ReplicateAll(m, mesh), mesh2) == ReplicateAll(m, mesh)
  {
    var once := ReplicateAll(m, mesh);
    forall k | k in once ensures Replicated(once[k], mesh2) == once[k] {
      assert once[k] == Replicated(m[k], mesh);
    }
  }

  /** The state a user `shard_fn(name, layer, mesh)` leaves a layer in:
      its new parameter and buffer dictionaries. The function sees and
      changes only the layer it is given. */
  type ShardFn = (string, Slots, Slots, ProcessMesh) -> (Slots, Slots)

  /** A sublayer: the dictionaries the model follows. */
  class Layer {
    var parameters: Slots
    var buffers: Slots

    constructor (parameters: Slots, buffers: Slots)
      ensures this.parameters == parameters && this.buffers == buffers
    {
      this.parameters := parameters;
      this.buffers := buffers;
    }

    /** `replicate_layer_params_and_buffers`: walks both dictionaries and
        replaces each non-distributed tensor by its replicated version. */
    method ReplicateParamsAndBuffers(mesh: ProcessMesh)
      modifies this
      ensures parameters == ReplicateAll(old(parameters), mesh)
      ensures buffers == ReplicateAll(old(buffers), mesh)
    {
      parameters := ReplicateSlots(parameters, mesh);
      buffers := ReplicateSlots(buffers, mesh);
    }
  }

  /** The loop over one dictionary's items, replacing entries one key at a
      time (each key is visited once; replacements do not add keys). */
  method ReplicateSlots(m: Slots, mesh: ProcessMesh) returns (r: Slots)
    ensures r == ReplicateAll(m, mesh)
  {
    r := m;
    var todo := m.Keys;
    while todo != {}
      invariant todo <= m.Keys
      invariant r.Keys == m.Keys
      invariant forall k :: k in todo ==> r[k] == m[k]
      invariant forall k :: k in m && k !in todo ==> r[k] == Replicated(m[k], mesh)
      decreases todo
    {
      var k :| k in todo;
      var entry := r[k];
      if entry.Some? && !entry.value.IsDist() {
        r := r[k := Some(ShardTensor(entry.value, mesh, AllReplicate(|entry.value.shape|)))];
      }
      todo := todo - {k};
    }
  }

  /** Layer state after shard_layer's per-sublayer step: first the user's
      `shard_fn`, if any, then replication of what is left. */
  function AfterShard(name: string, params: Slots, bufs: Slots, mesh: ProcessMesh,
                      shardFn: Option<ShardFn>): (Slots, Slots)
  {
    var (p, b) := match shardFn
      case None => (params, bufs)
      case Some(f) => f(name, params, bufs, mesh);
    (ReplicateAll(p, mesh), ReplicateAll(b, mesh))
  }

  predicate Distinct(layers: seq<Layer>)
  {
    forall i, j :: 0 <= i < j < |layers| ==> layers[i] != layers[j]
  }

  /** `shard_layer`, with `subs`/`names` the result of
      `layer.named_sublayers(include_self=True)` (distinct layers).
      ValueError when the mesh is None or not a ProcessMesh, NotImplementedError
      in static mode; in both cases no layer changes. In dynamic mode each
      sublayer's dictionaries become AfterShard of their old contents. */
  method ShardLayer(subs: seq<Layer>, names: seq<string>, mesh: MeshArg,
                    shardFn: Option<ShardFn>, mode: ExecMode) returns (r: Result<()>)
    requires |names| == |subs| && Distinct(subs)
    modifies set l | l in subs
    ensures mesh.NotAMesh? ==> r == Err(ValueError)
    ensures mesh.MeshValue? && mode.Static? ==> r == Err(NotImplementedError)
    ensures r.Err? ==> forall l :: l in subs ==> l.parameters == old(l.parameters) && l.buffers == old(l.buffers)
    ensures mesh.MeshValue? && mode.Dynamic? ==> r.Ok?
    ensures r.Ok? ==> forall i :: 0 <= i < |subs| ==>
      (subs[i].parameters, subs[i].buffers)
        == AfterShard(names[i], old(subs[i].parameters), old(subs[i].buffers), mesh.mesh, shardFn)
  {
    if mesh.NotAMesh? {
      return Err(ValueError);
    }
    if mode.Static? {
      return Err(NotImplementedError);
    }
    var i := 0;
    while i < |subs|
      invariant 0 <= i <= |subs|
      invariant forall j :: 0 <= j < i ==>
        (subs[j].parameters, subs[j].buffers)
          == AfterShard(names[j], old(subs[j].parameters), old(subs[j].buffers), mesh.mesh, shardFn)
      invariant forall j :: i <= j < |subs| ==>
        subs[j].parameters == old(subs[j].parameters) && subs[j].buffers == old(subs[j].buffers)
    {
      var layer := subs[i];
      if shardFn.Some? {
        var (p, b) := shardFn.value(names[i], layer.parameters, layer.buffers, mesh.mesh);
        layer.parameters, layer.buffers := p, b;
      }
      layer.ReplicateParamsAndBuffers(mesh.mesh);
      i := i + 1;
    }
    r := Ok(());
  }

  /** After a successful shard_layer every non-None parameter and buffer of
      every sublayer is distributed, whatever the user's shard_fn did to the
      parameters and buffers of the layer it was given. */
  lemma ShardLayerDistributesAll(name: string, params: Slots, bufs: Slots, mesh: ProcessMesh,
                                 shardFn: Option<ShardFn>)
    ensures var (p, b) := AfterShard(name, params, bufs, mesh, shardFn);
      && (forall k :: k in p && p[k].Some? ==> p[k].value.IsDist())
      && (forall k :: k in b && b[k].Some? ==> b[k].value.IsDist())
  {
    var (p0, b0) := match shardFn
      case None => (params, bufs)
      case Some(f) => f(name, params, bufs, mesh);
    ReplicateAllDistributes(p0, mesh);
    ReplicateAllDistributes(b0, mesh);
  }

  /** Applying shard_layer (without shard_fn) a second time changes nothing. */
  lemma ShardLayerTwiceIsOnce(name: string, params: Slots, bufs: Slots, mesh: ProcessMesh)
    ensures var (p, b) := AfterShard(name, params, bufs, mesh, None);
      AfterShard(name, p, b, mesh, None) == (p, b)
  {
    ReplicateAllIdempotent(params, mesh, mesh);
    ReplicateAllIdempotent(bufs, mesh, mesh);
  }
}
