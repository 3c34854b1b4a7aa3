/**
 * `DistAttr(mesh, sharding_specs)`: turns a list of mesh-axis names (or None)
 * into a dims-mapping, -1 standing for "not sharded".
 */
module DistAttrs {
  import opened Common
  import opened Placements

  /** The `mesh` argument: a ProcessMesh, or any other Python value. */
  datatype MeshArg = MeshValue(mesh: ProcessMesh) | NotAMesh

  /** One element of `sharding_specs`: a string, None, or another value. */
  datatype SpecEntry = Named(name: string) | Unmapped | NotAString

  /** The `sharding_specs` argument: a list, or any other Python value. */
  datatype SpecsArg = SpecList(entries: seq<SpecEntry>) | NotAList

  /** The tensor distribution attribute (the fields the model uses). */
  datatype DistAttr = DistAttr(
    mesh: ProcessMesh,
    shardingSpecs: seq<SpecEntry>,
    dimsMapping: seq<int>,
    meshAnnotated: bool,
    dimsMappingAnnotated: bool,
    partialDims: seq<nat>)

  /** `names.index(x)`: the first position of `x`, None when absent (where
      Python raises ValueError). */
  function IndexOf(names: seq<string>, x: string): (r: Option<nat>)
    ensures r.Some? <==> x in names
    ensures r.Some? ==> (r.value < |names| && names[r.value] == x
      && forall j :: 0 <= j < r.value ==> names[j] != x)
  {
    if names == [] then None
    else if names[0] == x then Some(0)
    else match IndexOf(names[1..], x)
      case None => None
      case Some(k) => Some(k + 1)
  }

  predicate AllStrOrNone(entries: seq<SpecEntry>)
  {
    forall i :: 0 <= i < |entries| ==> !entries[i].NotAString?
  }

  predicate AllKnown(entries: seq<SpecEntry>, names: seq<string>)
  {
    forall i :: 0 <= i < |entries| ==> entries[i].Named? ==> entries[i].name in names
  }

  /** The dims-mapping comprehension of `DistAttr.__init__`; None when a name
      is not an axis of the mesh (`list.index` raising). */
  function DimsMapping(entries: seq<SpecEntry>, names: seq<string>): (r: Option<seq<int>>)
    requires AllStrOrNone(entries)
  {
    if entries == [] then Some([])
    else
      var head: Option<int> := match entries[0]
        case Unmapped => Some(-1)
        case Named(n) => (match IndexOf(names, n) case None => None case Some(k) => Some(k as int))
        case NotAString => None;
      match (head, DimsMapping(entries[1..], names))
      case (Some(h), Some(t)) => Some([h] + t)
      case _ => None
  }

  /** The meaning of a dims-mapping entry: -1 for None, otherwise the first
      index of the name among the mesh axis names. */
  predicate MapsTo(e: SpecEntry, names: seq<string>, m: int)
  {
    match e
    case Unmapped => m == -1
    case Named(n) => 0 <= m < |names| && names[m] == n && forall j :: 0 <= j < m ==> names[j] != n
    case NotAString => false
  }

  lemma {:induction false} DimsMappingMeaning(entries: seq<SpecEntry>, names: seq<string>)
    requires AllStrOrNone(entries)
    ensures DimsMapping(entries, names).Some? <==> AllKnown(entries, names)
    ensures DimsMapping(entries, names).Some? ==>
      var m := DimsMapping(entries, names).value;
      |m| == |entries| && forall i :: 0 <= i < |entries| ==> MapsTo(entries[i], names, m[i])
  {
    if entries != [] {
      DimsMappingMeaning(entries[1..], names);
      assert forall i :: 1 <= i < |entries| ==> entries[i] == entries[1..][i - 1];
      if AllKnown(entries, names) {
        assert AllKnown(entries[1..], names);
        var m := DimsMapping(entries, names).value;
        forall i | 0 <= i < |entries| ensures MapsTo(entries[i], names, m[i]) {
          if i > 0 {
            assert m[i] == DimsMapping(entries[1..], names).value[i - 1];
          }
        }
      } else {
        var i :| 0 <= i < |entries| && entries[i].Named? && entries[i].name !in names;
        if i > 0 {
          assert !AllKnown(entries[1..], names);
        }
      }
    }
  }

  /** `DistAttr(mesh, sharding_specs)`: ValueError for a non-mesh, a non-list
      or an unknown axis name, AssertionError for an entry that is neither a
      string nor None; otherwise the mesh and dims-mapping, both marked
      annotated. */
  function NewDistAttr(mesh: MeshArg, specs: SpecsArg): (r: Result<DistAttr>)
    ensures mesh.NotAMesh? ==> r == Err(ValueError)
    ensures mesh.MeshValue? && specs.NotAList? ==> r == Err(ValueError)
    ensures mesh.MeshValue? && specs.SpecList? && !AllStrOrNone(specs.entries) ==> r == Err(AssertionError)
    ensures mesh.MeshValue? && specs.SpecList? && AllStrOrNone(specs.entries) ==>
      (r.Ok? <==> AllKnown(specs.entries, mesh.mesh.dimNames))
      && (r.Err? ==> r.error == ValueError)
    ensures r.Ok? ==>
      && r.value.mesh == mesh.mesh
      && r.value.shardingSpecs == specs.entries
      && |r.value.dimsMapping| == |specs.entries|
      && (forall i :: 0 <= i < |specs.entries| ==>
            MapsTo(specs.entries[i], mesh.mesh.dimNames, r.value.dimsMapping[i]))
      && r.value.meshAnnotated && r.value.dimsMappingAnnotated
      && r.value.partialDims == []
  {
    if mesh.NotAMesh? then Err(ValueError)
    else if specs.NotAList? then Err(ValueError)
    else if !AllStrOrNone(specs.entries) then Err(AssertionError)
    else
      DimsMappingMeaning(specs.entries, mesh.mesh.dimNames);
      match DimsMapping(specs.entries, mesh.mesh.dimNames)
      case None => Err(ValueError)
      case Some(m) => Ok(DistAttr(mesh.mesh, specs.entries, m, true, true, []))
  }

  /** An entry is -1 exactly when its spec is None. */
  lemma UnmappedIffMinusOne(mesh: ProcessMesh, entries: seq<SpecEntry>, i: nat)
    requires NewDistAttr(MeshValue(mesh), SpecList(entries)).Ok?
    requires i < |entries|
    ensures NewDistAttr(MeshValue(mesh), SpecList(entries)).value.dimsMapping[i] == -1
        <==> entries[i] == Unmapped
  {
    assert MapsTo(entries[i], mesh.dimNames, NewDistAttr(MeshValue(mesh), SpecList(entries)).value.dimsMapping[i]);
  }

  /** The sharding spec built from a placement list (`get_shard_spec`) as
      DistAttr input. */
  function SpecsOf(spec: seq<Option<string>>): (r: seq<SpecEntry>)
    ensures |r| == |spec|
    ensures forall i :: 0 <= i < |spec| ==> r[i] == (if spec[i].None? then Unmapped else Named(spec[i].value))
  {
    seq(|spec|, i requires 0 <= i < |spec| => if spec[i].None? then Unmapped else Named(spec[i].value))
  }

  /** Round trip from placements: building a DistAttr from the sharding spec
      of a placement list always succeeds, and, when the mesh axis names are
      distinct, gives for each tensor dimension d the first mesh axis whose
      placement is Shard(d), and -1 when none is. */
  lemma {:induction false} DistAttrFromPlacements(mesh: ProcessMesh, placements: seq<Placement>, ndim: nat)
    requires |placements| <= |mesh.dimNames|
    ensures var r := NewDistAttr(MeshValue(mesh), SpecList(SpecsOf(ShardSpec(mesh, placements, ndim))));
      && r.Ok?
      && |r.value.dimsMapping| == ndim
      && (DistinctNames(mesh.dimNames) ==> forall d :: 0 <= d < ndim ==>
           r.value.dimsMapping[d] == (match FirstShardAxis(placements, d) case None => -1 case Some(i) => i as int))
  {
    var entries := SpecsOf(ShardSpec(mesh, placements, ndim));
    assert AllStrOrNone(entries);
    assert AllKnown(entries, mesh.dimNames) by {
      forall i | 0 <= i < |entries| && entries[i].Named? ensures entries[i].name in mesh.dimNames {
        var k := FirstShardAxis(placements, i).value;
        assert mesh.dimNames[k] == entries[i].name;
      }
    }
    var r := NewDistAttr(MeshValue(mesh), SpecList(entries));
    if DistinctNames(mesh.dimNames) {
      forall d | 0 <= d < ndim
        ensures r.value.dimsMapping[d] == (match FirstShardAxis(placements, d) case None => -1 case Some(i) => i as int)
      {
        assert MapsTo(entries[d], mesh.dimNames, r.value.dimsMapping[d]);
        match FirstShardAxis(placements, d)
        case None =>
        case Some(i) =>
          var m := r.value.dimsMapping[d];
          assert mesh.dimNames[m] == mesh.dimNames[i];
          assert m == i;
      }
    }
  }

  /** `convert_to_dims_mapping(get_shard_spec(mesh, placements, ndim), mesh)`:
      the target dims-mapping of a reshard. */
  function TargetDimsMapping(mesh: ProcessMesh, placements: seq<Placement>, ndim: nat): (r: seq<int>)
    requires |placements| <= |mesh.dimNames|
    ensures |r| == ndim
    ensures DistinctNames(mesh.dimNames) ==> forall d :: 0 <= d < ndim ==>
      r[d] == (match FirstShardAxis(placements, d) case None => -1 case Some(i) => i as int)
  {
    DistAttrFromPlacements(mesh, placements, ndim);
    NewDistAttr(MeshValue(mesh), SpecList(SpecsOf(ShardSpec(mesh, placements, ndim)))).value.dimsMapping
  }
}
