/**
 * `reshard(dist_tensor, mesh, placements)`.
 *
 * Dynamic mode: builds the target DistAttr (with the partial dimensions)
 * handed to the runtime's reshard, which is not part of this model.
 * Static mode: appends one annotated `assign` transition op to the current
 * block of the main program and registers it in the distributed context.
 */
module Reshard {
  import opened Common
  import opened Placements
  import opened DistAttrs

  /** Indices of the `Partial` placements, in increasing order. */
  method PartialDims(placements: seq<Placement>) returns (dims: seq<nat>)
    ensures forall k :: 0 <= k < |dims| ==> dims[k] < |placements| && placements[dims[k]] == Partial
    ensures forall i :: 0 <= i < |placements| && placements[i] == Partial ==> i in dims
    ensures forall k, l :: 0 <= k < l < |dims| ==> dims[k] < dims[l]
  {
    dims := [];
    var i := 0;
    while i < |placements|
      invariant 0 <= i <= |placements|
      invariant forall k :: 0 <= k < |dims| ==> dims[k] < i && placements[dims[k]] == Partial
      invariant forall j :: 0 <= j < i && placements[j] == Partial ==> j in dims
      invariant forall k, l :: 0 <= k < l < |dims| ==> dims[k] < dims[l]
    {
      if placements[i] == Partial {
        dims := dims + [i];
      }
      i := i + 1;
    }
  }

  /** Dynamic branch: the DistAttr handed to the runtime's reshard for a
      tensor of rank `ndim`. Its mesh and dims-mapping come from the sharding
      spec of `placements`; its partial dimensions are the Partial axes, set
      only when there is at least one. */
  method DynamicReshardAttr(ndim: nat, mesh: ProcessMesh, placements: seq<Placement>) returns (attr: DistAttr)
    requires |placements| <= |mesh.dimNames|
    ensures attr.mesh == mesh
    ensures attr.dimsMapping == TargetDimsMapping(mesh, placements, ndim)
    ensures attr.meshAnnotated && attr.dimsMappingAnnotated
    ensures forall k :: 0 <= k < |attr.partialDims| ==>
              attr.partialDims[k] < |placements| && placements[attr.partialDims[k]] == Partial
    ensures forall i :: 0 <= i < |placements| && placements[i] == Partial ==> i in attr.partialDims
    ensures forall k, l :: 0 <= k < l < |attr.partialDims| ==> attr.partialDims[k] < attr.partialDims[l]
  {
    DistAttrFromPlacements(mesh, placements, ndim);
    var shardingSpecs := SpecsOf(ShardSpec(mesh, placements, ndim));
    attr := NewDistAttr(MeshValue(mesh), SpecList(shardingSpecs)).value;
    var partialDims := PartialDims(placements);
    if |partialDims| > 0 {
      attr := attr.(partialDims := partialDims);
    }
  }

  /** A graph variable (the fields the transition op copies). */
  datatype Var = Var(id: nat, dtype: string, shape: seq<int>, varType: string, persistable: bool, stopGradient: bool)

  /** The input of a static-mode reshard: a graph Variable or anything else. */
  datatype ReshardInput = VarInput(v: Var) | NotAVariable

  /** An operator of the block: type, `X` input ids, `Out` output ids. */
  datatype Op = Op(opType: string, inputs: seq<nat>, outputs: seq<nat>)

  /** Distributed attribute of one operand of an operator. */
  datatype OperandAttr = OperandAttr(varId: nat, dimsMapping: seq<int>, dimsMappingAnnotated: bool)

  /** Distributed annotation of an operator, as registered in the context. */
  datatype DistOp = DistOp(
    opIndex: nat,
    mesh: ProcessMesh,
    meshAnnotated: bool,
    chunkId: int,
    input: OperandAttr,
    output: OperandAttr)

  /** The current block of the main program together with the default
      distributed context: variables, operators, the registry of distributed
      operator annotations, and the set of ops excluded from sharding
      propagation. `nextVarId` stands for the unique-name generator. */
  class Program {
    var vars: seq<Var>
    var ops: seq<Op>
    var nextVarId: nat
    var distOps: seq<DistOp>
    var skipOps: set<nat>

    /** Every variable id was handed out by the generator; every registered
        annotation and every skip mark refers to an existing op. */
    ghost predicate Valid()
      reads this
    {
      && (forall i :: 0 <= i < |vars| ==> vars[i].id < nextVarId)
      && (forall k :: 0 <= k < |distOps| ==> distOps[k].opIndex < |ops|)
      && (forall o :: o in skipOps ==> o < |ops|)
    }

    constructor ()
      ensures Valid()
      ensures vars == [] && ops == [] && distOps == [] && skipOps == {}
    {
      vars, ops, nextVarId, distOps, skipOps := [], [], 0, [], {};
    }

    /** Static branch of `reshard`. A non-Variable input fails the assertion
        and changes nothing. Otherwise a fresh output variable with the
        input's dtype, shape, variable type and flags is created, exactly one `assign` op
        reading the input and writing it is appended, its annotation (target
        mesh, chunk id 0, both operands mapped to the target dims-mapping and
        marked annotated) is registered, and the op is marked to be skipped
        by sharding propagation. Earlier ops are unchanged. */
    method StaticReshard(x: ReshardInput, mesh: ProcessMesh, placements: seq<Placement>) returns (r: Result<Var>)
      requires Valid()
      requires |placements| <= |mesh.dimNames|
      modifies this
      ensures Valid()
      ensures x.NotAVariable? ==>
        && r == Err(AssertionError)
        && vars == old(vars) && ops == old(ops) && distOps == old(distOps)
        && skipOps == old(skipOps) && nextVarId == old(nextVarId)
      ensures x.VarInput? ==>
        var target := TargetDimsMapping(mesh, placements, |x.v.shape|);
        var out := Var(old(nextVarId), x.v.dtype, x.v.shape, x.v.varType, x.v.persistable, x.v.stopGradient);
        && r == Ok(out)
        && (forall i :: 0 <= i < |old(vars)| ==> old(vars)[i].id != out.id)
        && vars == old(vars) + [out]
        && nextVarId == old(nextVarId) + 1
        && ops == old(ops) + [Op("assign", [x.v.id], [out.id])]
        && distOps == old(distOps) + [DistOp(|old(ops)|, mesh, true, 0,
                                             OperandAttr(x.v.id, target, true),
                                             OperandAttr(out.id, target, true))]
        && skipOps == old(skipOps) + {|old(ops)|}
        && IsTransitionAnnotation(distOps, skipOps, |old(distOps)|, mesh)
    {
      if x.NotAVariable? {
        return Err(AssertionError);
      }
      var input := x.v;
      // output variable
      var out := Var(nextVarId, input.dtype, input.shape, input.varType, input.persistable, input.stopGradient);
      vars := vars + [out];
      nextVarId := nextVarId + 1;
      // transition op
      var target := TargetDimsMapping(mesh, placements, |input.shape|);
      var opIndex := |ops|;
      ops := ops + [Op("assign", [input.id], [out.id])];
      var distOp := DistOp(opIndex, mesh, true, 0,
                           OperandAttr(input.id, target, true),
                           OperandAttr(out.id, target, true));
      distOps := distOps + [distOp];
      skipOps := skipOps + {opIndex};
      r := Ok(out);
    }
  }

  /** The annotation a static reshard registers is authoritative for the
      sharding pass: its op is in the skip set, the mesh is the destination
      mesh, and input and output carry the same dims-mapping. */
  predicate IsTransitionAnnotation(p: seq<DistOp>, skip: set<nat>, k: nat, mesh: ProcessMesh)
  {
    k < |p| && p[k].opIndex in skip && p[k].mesh == mesh && p[k].meshAnnotated
    && p[k].chunkId == 0 && p[k].input.dimsMapping == p[k].output.dimsMapping
    && p[k].input.dimsMappingAnnotated && p[k].output.dimsMappingAnnotated
  }
}
