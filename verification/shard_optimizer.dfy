/**
 * `_ShardOptimizer`: wraps an AdamW or SGD optimizer so that its accumulators
 * follow the distribution of their parameters, builds the pipeline mesh the
 * global-norm gradient clip needs (once), and creates sharded optimizer
 * states on demand for `state_dict`.
 *
 * The optimizer's own arithmetic is not modelled; `_apply_optimize` is
 * recorded as the list of parameters it was handed.
 */
module ShardOptimizer {
  import opened Common
  import opened Placements
  import opened DTensor

  /** An optimizer parameter: its name, its metadata, whether it is frozen,
      whether `grad` (`_grad_ivar()`) is set, and `main_grad`: None when the
      parameter has no such attribute, Some(set) when it has one. */
  datatype Param = Param(name: string, tensor: Tensor, stopGradient: bool, hasGrad: bool, mainGrad: Option<bool>)

  /** A parameter group: its parameters, whether its `grad_clip` is a
      ClipGradByGlobalNorm, and that clip's `_pp_mesh`. */
  datatype ParamGroup = ParamGroup(params: seq<Param>, clipByGlobalNorm: bool, ppMesh: Option<ProcessMesh>)

  /** `_parameter_list`: plain parameters, or dictionaries of parameter groups. */
  datatype ParamList = Plain(params: seq<Param>) | Grouped(groups: seq<ParamGroup>)

  /** `_accumulators[key][name]`: accumulator kind, then target name. */
  type Accumulators = map<string, map<string, Tensor>>

  /** A user `shard_fn(key, param, accumulator)`. */
  type AccShardFn = (string, Param, Tensor) -> Tensor

  datatype OptimizerKind = AdamW | SGD | OtherOptimizer | NoOptimizer
  datatype GradClip = NoClip | ClipByGlobalNorm | OtherClip

  // ---------------------------------------------------------------------
  // _shard_accumulator

  /** The name accumulators of `p` are stored under: its master weight's name
      when it has one, its own name otherwise. */
  function TargetName(masterWeights: map<string, string>, p: Param): (r: string)
    ensures p.name in masterWeights ==> r == masterWeights[p.name]
    ensures p.name !in masterWeights ==> r == p.name
  {
    if p.name in masterWeights then masterWeights[p.name] else p.name
  }

  /** The accumulator stored for kind `key` after the sharding rule. */
  function ShardedAccumulator(key: string, p: Param, acc: Tensor, shardFn: Option<AccShardFn>): (r: Tensor)
    // already distributed: skipped
    ensures acc.IsDist() ==> r == acc
    // a user shard_fn decides
    ensures !acc.IsDist() && shardFn.Some? ==> r == shardFn.value(key, p, acc)
    // no shard_fn, dense parameter: untouched
    ensures !acc.IsDist() && shardFn.None? && !p.tensor.IsDist() ==> r == acc
    // no shard_fn, distributed parameter: beta accumulators replicated over
    // the parameter's mesh, all others placed like the parameter
    ensures !acc.IsDist() && shardFn.None? && p.tensor.IsDist() ==>
      var info := p.tensor.dist.value;
      && r.shape == acc.shape && r.IsDist()
      && r.dist.value.mesh == info.mesh
      && r.dist.value.placements
           == (if Contains(key, "beta") then AllReplicate(MeshRank(info.mesh)) else info.placements)
  {
    if acc.IsDist() then acc
    else match shardFn
      case Some(f) => f(key, p, acc)
      case None =>
        if p.tensor.IsDist() then
          var info := p.tensor.dist.value;
          var placements := if !Contains(key, "beta") then info.placements
                            else AllReplicate(MeshRank(info.mesh));
          ShardTensor(acc, info.mesh, placements)
        else acc
  }

  /** The body of `_shard_accumulator`'s loop for a dense accumulator. */
  method ShardDense(key: string, p: Param, acc: Tensor, shardFn: Option<AccShardFn>) returns (sharded: Tensor)
    requires !acc.IsDist()
    ensures sharded == ShardedAccumulator(key, p, acc, shardFn)
  {
    sharded := acc;
    if shardFn.Some? {
      sharded := shardFn.value(key, p, acc);
    } else if p.tensor.IsDist() {
      var placements := if !Contains(key, "beta") then p.tensor.dist.value.placements
                        else AllReplicate(MeshRank(p.tensor.dist.value.mesh));
      sharded := ShardTensor(acc, p.tensor.dist.value.mesh, placements);
    }
  }

  /** The accumulator table after `_create_accumulators` for one target:
      every accumulator kind of the optimizer gets a dense entry for the
      target (shaped by the optimizer's rule), existing entries are kept. */
  function Created(accs: Accumulators, kinds: set<string>, accShape: (string, seq<nat>) -> seq<nat>,
                   target: string, shape: seq<nat>): (r: Accumulators)
    requires accs.Keys <= kinds
    ensures r.Keys == kinds
    ensures forall key :: key in r ==> target in r[key]
    ensures forall key, n :: key in accs && n in accs[key] ==> n in r[key] && r[key][n] == accs[key][n]
    ensures forall key, n :: key in r && n in r[key] && n != target ==> key in accs && n in accs[key]
  {
    map key | key in kinds ::
      var inner := if key in accs then accs[key] else map[];
      if target in inner then inner else inner[target := Tensor(accShape(key, shape), None)]
  }

  /** Sharding rule applied to every kind's entry for `target`. */
  function ShardEntries(accs: Accumulators, target: string, p: Param, shardFn: Option<AccShardFn>): (r: Accumulators)
    requires forall key :: key in accs ==> target in accs[key]
    ensures r.Keys == accs.Keys
    ensures forall key :: key in r ==> r[key].Keys == accs[key].Keys
    ensures forall key :: key in r ==> r[key][target] == ShardedAccumulator(key, p, accs[key][target], shardFn)
    ensures forall key, n :: key in r && n in r[key] && n != target ==> r[key][n] == accs[key][n]
  {
    map key | key in accs :: accs[key][target := ShardedAccumulator(key, p, accs[key][target], shardFn)]
  }

  /** `Contains(s, pat)` fails when the first character of `pat` never occurs in `s`. */
  lemma {:induction false} NotContainsFirst(s: string, pat: string)
    requires |pat| > 0 && pat[0] !in s
    ensures !Contains(s, pat)
  {
    if |s| > 0 {
      assert pat[0] !in s[1..];
      NotContainsFirst(s[1..], pat);
    }
  }

  /** AdamW with a parameter sharded along dim 0 of a one-axis mesh: its
      moment is sharded like the parameter, its beta power is replicated. */
  lemma AdamWAccumulatorsFollowParam(mesh: ProcessMesh, acc: Tensor)
    requires |mesh.shape| == 1 && !acc.IsDist()
    ensures var p := Param("w", Tensor([8, 4], Some(DistInfo(mesh, [Shard(0)], None))), false, true, None);
      && ShardedAccumulator("moment1", p, acc, None).dist.value.placements == [Shard(0)]
      && ShardedAccumulator("beta1_pow_acc", p, acc, None).dist.value.placements == [Replicate]
  {
    assert "beta1_pow_acc"[0..4] == "beta";
    ContainsAt("beta1_pow_acc", "beta", 0);
    NotContainsFirst("moment1", "beta");
  }

  // ---------------------------------------------------------------------
  // step: collecting parameters

  /** The parameters handed to `_apply_optimize`: trainable ones with a
      gradient, in order. */
  function WithGrads(ps: seq<Param>): (r: seq<Param>)
    ensures forall p :: p in r <==> p in ps && !p.stopGradient && p.hasGrad
    ensures |r| <= |ps|
  {
    if ps == [] then []
    else
      var n := |ps| - 1;
      assert ps == ps[..n] + [ps[n]];
      var q := WithGrads(ps[..n]);
      if !ps[n].stopGradient && ps[n].hasGrad then q + [ps[n]] else q
  }

  /** A parameter whose mesh enters the global-norm clip's pipeline mesh. */
  predicate Clips(p: Param)
  {
    !p.stopGradient && p.tensor.IsDist()
  }

  function MeshIds(p: Param): seq<int>
    requires p.tensor.IsDist()
  {
    p.tensor.dist.value.mesh.processIds
  }

  /** `all_process_ids`: the process-id lists of the meshes of trainable
      distributed parameters, each list once, in first-seen order. */
  function ClipIds(ps: seq<Param>): (r: seq<seq<int>>)
    ensures forall x :: x in r <==> exists k :: 0 <= k < |ps| && Clips(ps[k]) && MeshIds(ps[k]) == x
    ensures forall i, j :: 0 <= i < j < |r| ==> r[i] != r[j]
  {
    if ps == [] then []
    else
      var n := |ps| - 1;
      var q := ClipIds(ps[..n]);
      assert forall k :: 0 <= k < n ==> ps[..n][k] == ps[k];
      if Clips(ps[n]) && MeshIds(ps[n]) !in q then q + [MeshIds(ps[n])] else q
  }

  /** The loop of `step` over one parameter list: the gradient list, and,
      when `collectIds`, the de-duplicated process-id lists. */
  method CollectParams(ps: seq<Param>, collectIds: bool) returns (grads: seq<Param>, ids: seq<seq<int>>)
    ensures grads == WithGrads(ps)
    ensures ids == (if collectIds then ClipIds(ps) else [])
  {
    grads, ids := [], [];
    var i := 0;
    while i < |ps|
      invariant 0 <= i <= |ps|
      invariant grads == WithGrads(ps[..i])
      invariant ids == (if collectIds then ClipIds(ps[..i]) else [])
    {
      var p := ps[i];
      assert ps[..i + 1][..i] == ps[..i];
      if !p.stopGradient {
        if p.hasGrad {
          grads := grads + [p];
        }
        if collectIds && p.tensor.IsDist() {
          if p.tensor.dist.value.mesh.processIds !in ids {
            ids := ids + [p.tensor.dist.value.mesh.processIds];
          }
        }
      }
      i := i + 1;
    }
    assert ps[..|ps|] == ps;
  }

  // ---------------------------------------------------------------------
  // generate_pp_mesh

  /** `np.array(rows)` has a second axis: at least one row, all rows equally long. */
  predicate Rectangular(rows: seq<seq<int>>)
  {
    |rows| > 0 && forall i :: 0 <= i < |rows| ==> |rows[i]| == |rows[0]|
  }

  /** `mesh[:, c].tolist()`. */
  function Column(rows: seq<seq<int>>, c: nat): (r: seq<int>)
    requires Rectangular(rows) && c < |rows[0]|
    ensures |r| == |rows| && forall k :: 0 <= k < |rows| ==> r[k] == rows[k][c]
  {
    seq(|rows|, k requires 0 <= k < |rows| => rows[k][c])
  }

  /** `ProcessMesh(ranks)`: a one-axis mesh with the default axis name. */
  function Mesh1D(ids: seq<int>): ProcessMesh
  {
    ProcessMesh([|ids|], ids, ["d0"])
  }

  /** The last of the first `n` columns that holds `rank`. */
  function LastColumnWith(rows: seq<seq<int>>, rank: int, n: nat): (r: Option<nat>)
    requires Rectangular(rows) && n <= |rows[0]|
    ensures r.Some? ==> (r.value < n && rank in Column(rows, r.value)
      && forall c :: r.value < c < n ==> rank !in Column(rows, c))
    ensures r.None? ==> forall c :: 0 <= c < n ==> rank !in Column(rows, c)
  {
    if n == 0 then None
    else if rank in Column(rows, n - 1) then Some(n - 1)
    else LastColumnWith(rows, rank, n - 1)
  }

  /** The pipeline mesh for the global-norm clip: none for at most one mesh,
      ValueError when the id lists have different lengths (numpy refuses the
      ragged array), otherwise the one-axis mesh over the last column that
      holds this rank, none when no column does. */
  function PpMeshOf(rows: seq<seq<int>>, rank: int): (r: Result<Option<ProcessMesh>>)
  {
    if |rows| <= 1 then Ok(None)
    else if !Rectangular(rows) then Err(ValueError)
    else match LastColumnWith(rows, rank, |rows[0]|)
      case None => Ok(None)
      case Some(c) => Ok(Some(Mesh1D(Column(rows, c))))
  }

  /** The meaning of PpMeshOf. */
  lemma PpMeshOfMeaning(rows: seq<seq<int>>, rank: int)
    ensures var r := PpMeshOf(rows, rank);
      && (|rows| <= 1 ==> r == Ok(None))
      && (|rows| > 1 ==> (r.Err? <==> !Rectangular(rows)) && (r.Err? ==> r.error == ValueError))
      && (r.Ok? && r.value.Some? ==>
            var m := r.value.value;
            && |rows| > 1 && rank in m.processIds && m.shape == [|rows|] && m.dimNames == ["d0"]
            && exists c {:trigger Column(rows, c)} :: 0 <= c < |rows[0]| && m.processIds == Column(rows, c)
                 && forall c' :: c < c' < |rows[0]| ==> rank !in Column(rows, c'))
      && (r.Ok? && r.value.None? && |rows| > 1 ==>
            forall c :: 0 <= c < |rows[0]| ==> rank !in Column(rows, c))
  {
  }

  /** `generate_pp_mesh(all_process_ids)` with `rank` the current rank: a
      loop over the columns in which a later match overrides an earlier one. */
  method GeneratePpMesh(rows: seq<seq<int>>, rank: int) returns (r: Result<Option<ProcessMesh>>)
    ensures r == PpMeshOf(rows, rank)
  {
    if |rows| <= 1 {
      return Ok(None);
    }
    if !Rectangular(rows) {
      return Err(ValueError);
    }
    var pp: Option<ProcessMesh> := None;
    var i := 0;
    while i < |rows[0]|
      invariant 0 <= i <= |rows[0]|
      invariant pp == match LastColumnWith(rows, rank, i)
                      case None => None
                      case Some(c) => Some(Mesh1D(Column(rows, c)))
    {
      var ranks := Column(rows, i);
      if rank in ranks {
        pp := Some(Mesh1D(ranks));
      }
      i := i + 1;
    }
    r := Ok(pp);
  }

  // ---------------------------------------------------------------------
  // the accumulator table across calls

  /** What the wrapped optimizer fixes: its accumulator kinds and their
      shapes (from `_create_accumulators`), its master weights, and the
      user's shard_fn. */
  datatype AccConfig = AccConfig(
    kinds: set<string>,
    accShape: (string, seq<nat>) -> seq<nat>,
    masterWeights: map<string, string>,
    shardFn: Option<AccShardFn>)

  /** The table after `_shard_accumulator(p)`. */
  function AccAfter(cfg: AccConfig, accs: Accumulators, p: Param): (r: Accumulators)
    requires accs.Keys <= cfg.kinds
    ensures r.Keys == cfg.kinds
  {
    var t := TargetName(cfg.masterWeights, p);
    ShardEntries(Created(accs, cfg.kinds, cfg.accShape, t, p.tensor.shape), t, p, cfg.shardFn)
  }

  /** What `_shard_accumulator(p)` does to the table: for every accumulator
      kind, the entry of p's target is created if missing and then sharded;
      every other entry is kept. */
  lemma AccAfterEntries(cfg: AccConfig, accs: Accumulators, p: Param, key: string)
    requires accs.Keys <= cfg.kinds && key in cfg.kinds
    ensures var r := AccAfter(cfg, accs, p);
      var t := TargetName(cfg.masterWeights, p);
      && t in r[key]
      && r[key][t] == ShardedAccumulator(key, p,
           if key in accs && t in accs[key] then accs[key][t] else Tensor(cfg.accShape(key, p.tensor.shape), None),
           cfg.shardFn)
      && (forall n :: n in r[key] && n != t ==> key in accs && n in accs[key] && r[key][n] == accs[key][n])
      && (key in accs ==> forall n :: n in accs[key] ==> n in r[key])
  {
  }

  /** The table part-way through `_shard_accumulator`'s loop: the kinds in
      `done` have their entry for `target` sharded, the others not yet. */
  ghost function PartlySharded(accs: Accumulators, target: string, p: Param, shardFn: Option<AccShardFn>,
                               done: set<string>): Accumulators
    requires forall key :: key in accs ==> target in accs[key]
  {
    map key | key in accs ::
      if key in done then accs[key][target := ShardedAccumulator(key, p, accs[key][target], shardFn)]
      else accs[key]
  }

  lemma PartlyShardedStep(accs: Accumulators, target: string, p: Param, shardFn: Option<AccShardFn>,
                          done: set<string>, key: string)
    requires forall k :: k in accs ==> target in accs[k]
    requires key in accs && key !in done
    ensures PartlySharded(accs, target, p, shardFn, done)[key] == accs[key]
    ensures PartlySharded(accs, target, p, shardFn, done + {key})
         == PartlySharded(accs, target, p, shardFn, done)[key :=
              accs[key][target := ShardedAccumulator(key, p, accs[key][target], shardFn)]]
  {
  }

  lemma PartlyShardedAll(accs: Accumulators, target: string, p: Param, shardFn: Option<AccShardFn>)
    requires forall k :: k in accs ==> target in accs[k]
    ensures PartlySharded(accs, target, p, shardFn, accs.Keys) == ShardEntries(accs, target, p, shardFn)
  {
  }

  /** The loop of `_shard_accumulator` over the accumulator kinds: each
      dense entry for `target` is replaced by its sharded version. */
  method ShardTable(accs: Accumulators, target: string, p: Param, shardFn: Option<AccShardFn>)
    returns (r: Accumulators)
    requires forall key :: key in accs ==> target in accs[key]
    ensures r == ShardEntries(accs, target, p, shardFn)
  {
    r := accs;
    var todo := accs.Keys;
    while todo != {}
      invariant todo <= accs.Keys
      invariant r == PartlySharded(accs, target, p, shardFn, accs.Keys - todo)
      decreases todo
    {
      var key :| key in todo;
      PartlyShardedStep(accs, target, p, shardFn, accs.Keys - todo, key);
      var accumulator := r[key][target];
      if !accumulator.IsDist() {
        var sharded := ShardDense(key, p, accumulator, shardFn);
        r := r[key := r[key][target := sharded]];
      } else {
        MapSelfUpdate(accs[key], target);
        MapSelfUpdate(r, key);
      }
      assert accs.Keys - (todo - {key}) == (accs.Keys - todo) + {key};
      todo := todo - {key};
    }
    assert accs.Keys - todo == accs.Keys;
    PartlyShardedAll(accs, target, p, shardFn);
  }

  /** Without a shard_fn, sharding a parameter's accumulators twice is the
      same as once. */
  lemma AccAfterIdempotent(cfg: AccConfig, accs: Accumulators, p: Param)
    requires accs.Keys <= cfg.kinds && cfg.shardFn.None?
    ensures AccAfter(cfg, AccAfter(cfg, accs, p), p) == AccAfter(cfg, accs, p)
  {
    var once := AccAfter(cfg, accs, p);
    var twice := AccAfter(cfg, once, p);
    forall key | key in once ensures twice[key] == once[key] {
      AccAfterIdempotentAt(cfg, accs, p, key);
    }
    MapExt(twice, once);
  }

  lemma AccAfterIdempotentAt(cfg: AccConfig, accs: Accumulators, p: Param, key: string)
    requires accs.Keys <= cfg.kinds && cfg.shardFn.None? && key in cfg.kinds
    ensures AccAfter(cfg, AccAfter(cfg, accs, p), p)[key] == AccAfter(cfg, accs, p)[key]
  {
    var t := TargetName(cfg.masterWeights, p);
    var once := AccAfter(cfg, accs, p);
    var twice := AccAfter(cfg, once, p);
    AccAfterEntries(cfg, accs, p, key);
    AccAfterEntries(cfg, once, p, key);
    assert twice[key][t] == ShardedAccumulator(key, p, once[key][t], None);
    assert twice[key][t] == once[key][t];
    forall n | n in once[key] ensures n in twice[key] && twice[key][n] == once[key][n] {
    }
    assert twice[key].Keys == once[key].Keys;
    MapExt(twice[key], once[key]);
  }

  /** The table after sharding the accumulators of each of `ps` in turn. */
  function AccAfterAll(cfg: AccConfig, accs: Accumulators, ps: seq<Param>): (r: Accumulators)
    requires accs.Keys <= cfg.kinds
    ensures r.Keys <= cfg.kinds
  {
    if ps == [] then accs
    else AccAfter(cfg, AccAfterAll(cfg, accs, ps[..|ps| - 1]), ps[|ps| - 1])
  }

  lemma AccAfterAllLast(cfg: AccConfig, accs: Accumulators, ps: seq<Param>)
    requires accs.Keys <= cfg.kinds && ps != []
    ensures AccAfterAll(cfg, accs, ps) == AccAfter(cfg, AccAfterAll(cfg, accs, ps[..|ps| - 1]), ps[|ps| - 1])
  {
  }

  /** Sharding for `xs + ys` is sharding for `xs`, then for `ys`. */
  lemma {:induction false} AccAfterAllAppend(cfg: AccConfig, accs: Accumulators, xs: seq<Param>, ys: seq<Param>)
    requires accs.Keys <= cfg.kinds
    ensures AccAfterAll(cfg, accs, xs + ys) == AccAfterAll(cfg, AccAfterAll(cfg, accs, xs), ys)
  {
    if ys == [] {
      assert xs + ys == xs;
    } else {
      var n := |ys| - 1;
      var zs := xs + ys;
      AccAfterAllLast(cfg, accs, zs);
      AccAfterAllLast(cfg, AccAfterAll(cfg, accs, xs), ys);
      assert zs[..|zs| - 1] == xs + ys[..n];
      assert zs[|zs| - 1] == ys[n];
      AccAfterAllAppend(cfg, accs, xs, ys[..n]);
    }
  }

  /** Nothing else changes: an entry whose name is no parameter's target
      keeps its value. */
  lemma {:induction false} AccAfterAllFrame(cfg: AccConfig, accs: Accumulators, ps: seq<Param>, key: string, n: string)
    requires accs.Keys <= cfg.kinds
    requires key in accs && n in accs[key]
    requires forall k :: 0 <= k < |ps| ==> TargetName(cfg.masterWeights, ps[k]) != n
    ensures var r := AccAfterAll(cfg, accs, ps); key in r && n in r[key] && r[key][n] == accs[key][n]
  {
    if ps != [] {
      AccAfterAllFrame(cfg, accs, ps[..|ps| - 1], key, n);
    }
  }

  // ---------------------------------------------------------------------
  // step: parameter groups

  /** The id lists one group collects: only before the pipeline mesh was
      generated and when the group clips by global norm. */
  function GroupIds(g: ParamGroup, generated: bool): seq<seq<int>>
  {
    if !generated && g.clipByGlobalNorm then ClipIds(g.params) else []
  }

  /** A group after `step`: its clip gets a pipeline mesh when it collected
      at least one id list. */
  function UpdatedGroup(g: ParamGroup, generated: bool, rank: int): (r: ParamGroup)
    ensures r.params == g.params && r.clipByGlobalNorm == g.clipByGlobalNorm
    ensures generated ==> r == g
  {
    var ids := GroupIds(g, generated);
    if |ids| > 0 && PpMeshOf(ids, rank).Ok? then g.(ppMesh := PpMeshOf(ids, rank).value) else g
  }

  /** The group's pipeline mesh, if it needs one, does not fail. */
  predicate GroupOk(g: ParamGroup, generated: bool, rank: int)
  {
    |GroupIds(g, generated)| > 0 ==> PpMeshOf(GroupIds(g, generated), rank).Ok?
  }

  predicate GroupsOk(gs: seq<ParamGroup>, generated: bool, rank: int)
  {
    forall i :: 0 <= i < |gs| ==> GroupOk(gs[i], generated, rank)
  }

  lemma GroupsOkSnoc(gs: seq<ParamGroup>, i: nat, generated: bool, rank: int)
    requires i < |gs| && GroupsOk(gs[..i], generated, rank) && GroupOk(gs[i], generated, rank)
    ensures GroupsOk(gs[..i + 1], generated, rank)
  {
    var t, u := gs[..i + 1], gs[..i];
    forall j | 0 <= j < |t|
      ensures GroupOk(t[j], generated, rank)
    {
      if j < i {
        assert t[j] == u[j];
      }
    }
  }

  /** The groups after the first `i` iterations of the loop over them. */
  function UpdatedPrefix(gs: seq<ParamGroup>, i: nat, generated: bool, rank: int): (r: seq<ParamGroup>)
    ensures |r| == |gs|
  {
    seq(|gs|, j requires 0 <= j < |gs| => if j < i then UpdatedGroup(gs[j], generated, rank) else gs[j])
  }

  lemma UpdatedPrefixAll(gs: seq<ParamGroup>, generated: bool, rank: int)
    ensures forall j :: 0 <= j < |gs| ==>
      UpdatedPrefix(gs, |gs|, generated, rank)[j] == UpdatedGroup(gs[j], generated, rank)
  {
  }

  lemma UpdatedPrefixNext(gs: seq<ParamGroup>, i: nat, generated: bool, rank: int)
    requires i < |gs|
    ensures UpdatedPrefix(gs, i + 1, generated, rank)
            == UpdatedPrefix(gs, i, generated, rank)[i := UpdatedGroup(gs[i], generated, rank)]
  {
  }

  /** The parameters of all groups handed to `_apply_optimize`, in order. */
  function AllGrads(gs: seq<ParamGroup>): seq<Param>
  {
    if gs == [] then [] else AllGrads(gs[..|gs| - 1]) + WithGrads(gs[|gs| - 1].params)
  }

  lemma AllGradsPrefix(gs: seq<ParamGroup>, i: nat)
    requires i < |gs|
    ensures AllGrads(gs[..i + 1]) == AllGrads(gs[..i]) + WithGrads(gs[i].params)
  {
    assert gs[..i + 1][..i] == gs[..i];
  }

  /** One `_apply_optimize` call per group. */
  function GroupGrads(gs: seq<ParamGroup>): (r: seq<seq<Param>>)
    ensures |r| == |gs| && forall i :: 0 <= i < |gs| ==> r[i] == WithGrads(gs[i].params)
  {
    seq(|gs|, i requires 0 <= i < |gs| => WithGrads(gs[i].params))
  }

  lemma GroupGradsPrefix(gs: seq<ParamGroup>, i: nat)
    requires i < |gs|
    ensures GroupGrads(gs[..i + 1]) == GroupGrads(gs[..i]) + [WithGrads(gs[i].params)]
  {
    var a, b := GroupGrads(gs[..i + 1]), GroupGrads(gs[..i]) + [WithGrads(gs[i].params)];
    assert |a| == |b|;
    forall k | 0 <= k < |a| ensures a[k] == b[k] {
      assert gs[..i + 1][k] == gs[k];
    }
  }

  /** The table after the groups' parameters were sharded group by group. */
  function AccAfterGroups(cfg: AccConfig, accs: Accumulators, gs: seq<ParamGroup>): (r: Accumulators)
    requires accs.Keys <= cfg.kinds
    ensures r.Keys <= cfg.kinds
  {
    if gs == [] then accs
    else AccAfterAll(cfg, AccAfterGroups(cfg, accs, gs[..|gs| - 1]), WithGrads(gs[|gs| - 1].params))
  }

  lemma AccAfterGroupsPrefix(cfg: AccConfig, accs: Accumulators, gs: seq<ParamGroup>, i: nat)
    requires accs.Keys <= cfg.kinds && i < |gs|
    ensures AccAfterGroups(cfg, accs, gs[..i + 1])
         == AccAfterAll(cfg, AccAfterGroups(cfg, accs, gs[..i]), WithGrads(gs[i].params))
  {
    assert gs[..i + 1][..i] == gs[..i];
  }

  /** Group by group is the same as all groups' parameters in one list. */
  lemma {:induction false} AccAfterGroupsFlat(cfg: AccConfig, accs: Accumulators, gs: seq<ParamGroup>)
    requires accs.Keys <= cfg.kinds
    ensures AccAfterGroups(cfg, accs, gs) == AccAfterAll(cfg, accs, AllGrads(gs))
  {
    if gs != [] {
      var n := |gs| - 1;
      AccAfterGroupsFlat(cfg, accs, gs[..n]);
      AccAfterAllAppend(cfg, accs, AllGrads(gs[..n]), WithGrads(gs[n].params));
    }
  }

  lemma NextCalls(calls: seq<seq<Param>>, gs: seq<ParamGroup>, i: nat)
    requires i < |gs|
    ensures (calls + GroupGrads(gs[..i])) + [WithGrads(gs[i].params)] == calls + GroupGrads(gs[..i + 1])
  {
    GroupGradsPrefix(gs, i);
    ConcatAssoc(calls, GroupGrads(gs[..i]), [WithGrads(gs[i].params)]);
  }

  predicate EmptyList(pl: ParamList)
  {
    (pl.Plain? && pl.params == []) || (pl.Grouped? && pl.groups == [])
  }

  // ---------------------------------------------------------------------
  // state_dict

  /** A trainable parameter whose gradient (`main_grad` when it has that
      attribute, `grad` otherwise) is set: training has started. */
  predicate Started(p: Param)
  {
    !p.stopGradient && (if p.mainGrad.Some? then p.mainGrad.value else p.hasGrad)
  }

  predicate TrainingStarted(ps: seq<Param>)
  {
    exists k :: 0 <= k < |ps| && Started(ps[k])
  }

  /** The parameters of every group, concatenated. */
  function AllParams(pl: ParamList): seq<Param>
  {
    match pl
    case Plain(ps) => ps
    case Grouped(gs) => GroupParams(gs)
  }

  function GroupParams(gs: seq<ParamGroup>): (r: seq<Param>)
    ensures forall i, p :: 0 <= i < |gs| && p in gs[i].params ==> p in r
  {
    if gs == [] then [] else GroupParams(gs[..|gs| - 1]) + gs[|gs| - 1].params
  }

  /** Some optimizer state other than the master weights and the learning
      rate scheduler is already distributed. */
  predicate DistState(state: map<string, Tensor>)
  {
    exists k :: k in state && k != "master_weights" && k != "LR_Scheduler" && state[k].IsDist()
  }

  /** `state_dict` returns the inner optimizer's state as it is. */
  predicate EarlyReturn(pl: ParamList, state: map<string, Tensor>)
  {
    TrainingStarted(AllParams(pl)) || DistState(state)
  }

  /** A fake zero gradient: `main_grad` when the parameter has that
      attribute, `grad` otherwise; frozen parameters are skipped. */
  function Fake(p: Param): (r: Param)
    ensures r.name == p.name && r.tensor == p.tensor && r.stopGradient == p.stopGradient
  {
    if p.stopGradient then p
    else if p.mainGrad.Some? then p.(mainGrad := Some(true))
    else p.(hasGrad := true)
  }

  function Faked(ps: seq<Param>): (r: seq<Param>)
    ensures |r| == |ps| && forall i :: 0 <= i < |ps| ==> r[i] == Fake(ps[i])
  {
    seq(|ps|, i requires 0 <= i < |ps| => Fake(ps[i]))
  }

  /** `clear_grad(set_to_zero=False)`: `grad` of every trainable parameter
      becomes None. */
  function Cleared(ps: seq<Param>): (r: seq<Param>)
    ensures |r| == |ps| && forall i :: 0 <= i < |ps| ==>
      r[i] == (if ps[i].stopGradient then ps[i] else ps[i].(hasGrad := false))
  {
    seq(|ps|, i requires 0 <= i < |ps| => if ps[i].stopGradient then ps[i] else ps[i].(hasGrad := false))
  }

  function ClearedGroups(gs: seq<ParamGroup>): seq<ParamGroup>
  {
    seq(|gs|, i requires 0 <= i < |gs| => gs[i].(params := Cleared(gs[i].params)))
  }

  /** The faked step optimizes exactly the trainable parameters that have no
      `main_grad` attribute, plus those with one whose `grad` happens to be
      set: the fake `main_grad` is not what the step reads. */
  lemma FakedGrads(ps: seq<Param>)
    ensures forall k :: 0 <= k < |ps| ==>
      (Fake(ps[k]) in WithGrads(Faked(ps))
       <==> !ps[k].stopGradient && (ps[k].mainGrad.None? || ps[k].hasGrad))
  {
    var f := Faked(ps);
    forall k | 0 <= k < |ps| && !ps[k].stopGradient && (ps[k].mainGrad.None? || ps[k].hasGrad)
      ensures Fake(ps[k]) in WithGrads(f)
    {
      assert f[k] == Fake(ps[k]);
    }
  }

  /** Faking gradients does not change which meshes the clip collects. */
  lemma {:induction false} ClipIdsFaked(ps: seq<Param>)
    ensures ClipIds(Faked(ps)) == ClipIds(ps)
  {
    if ps != [] {
      var n := |ps| - 1;
      assert Faked(ps)[..n] == Faked(ps[..n]);
      ClipIdsFaked(ps[..n]);
    }
  }

  /** The first loop of `state_dict`: has any trainable parameter a gradient? */
  method HasStarted(ps: seq<Param>) returns (b: bool)
    ensures b <==> TrainingStarted(ps)
  {
    var i := 0;
    while i < |ps|
      invariant 0 <= i <= |ps|
      invariant forall k :: 0 <= k < i ==> !Started(ps[k])
    {
      var p := ps[i];
      if !p.stopGradient {
        if p.mainGrad.Some? {
          if p.mainGrad.value {
            return true;
          }
        } else if p.hasGrad {
          return true;
        }
      }
      i := i + 1;
    }
    return false;
  }

  /** The faking loop of `state_dict`. The early return already excluded
      any gradient set beforehand, so its "gradient should be None"
      ValueError fires only on a parameter object met a second time (listed
      twice, or in two groups), whose gradient this loop itself just set.
      Each entry here is its own value, so that repeat is not modelled. */
  method FakeGrads(ps: seq<Param>) returns (faked: seq<Param>)
    requires !TrainingStarted(ps)
    ensures faked == Faked(ps)
  {
    faked := [];
    var i := 0;
    while i < |ps|
      invariant 0 <= i <= |ps|
      invariant faked == Faked(ps[..i])
    {
      var p := ps[i];
      if !p.stopGradient {
        assert !Started(ps[i]);
        if p.mainGrad.Some? {
          assert !p.mainGrad.value;
          p := p.(mainGrad := Some(true));
        } else {
          assert !p.hasGrad;
          p := p.(hasGrad := true);
        }
      }
      faked := faked + [p];
      i := i + 1;
    }
    assert ps[..|ps|] == ps;
  }

  /** The faking loop over parameter groups. */
  method FakeGroupGrads(gs: seq<ParamGroup>) returns (faked: seq<ParamGroup>)
    requires !TrainingStarted(GroupParams(gs))
    ensures |faked| == |gs|
    ensures forall j :: 0 <= j < |gs| ==> faked[j] == gs[j].(params := Faked(gs[j].params))
  {
    faked := [];
    var i := 0;
    while i < |gs|
      invariant 0 <= i <= |gs| && |faked| == i
      invariant forall j :: 0 <= j < i ==> faked[j] == gs[j].(params := Faked(gs[j].params))
    {
      assert !TrainingStarted(gs[i].params) by {
        forall k | 0 <= k < |gs[i].params| ensures !Started(gs[i].params[k]) {
          assert gs[i].params[k] in GroupParams(gs);
        }
      }
      var params := FakeGrads(gs[i].params);
      faked := faked + [gs[i].(params := params)];
      i := i + 1;
    }
  }

  // ---------------------------------------------------------------------
  // the wrapper

  class Optimizer {
    var accumulators: Accumulators
    var paramList: ParamList
    var generateFlag: bool
    /** `_pp_mesh` of the optimizer's own global-norm clip. */
    var clipPpMesh: Option<ProcessMesh>
    /** The `params_grads` of every `_apply_optimize` call so far. */
    var optimized: seq<seq<Param>>
    const config: AccConfig
    const shardClip: bool
    /** `dist.get_rank()`. */
    const rank: int

    ghost predicate Valid()
      reads this
    {
      accumulators.Keys <= config.kinds
    }

    twostate predicate Unchanged()
      reads this
    {
      && accumulators == old(accumulators) && paramList == old(paramList)
      && generateFlag == old(generateFlag) && clipPpMesh == old(clipPpMesh)
      && optimized == old(optimized)
    }

    constructor (paramList: ParamList, config: AccConfig, clip: GradClip, rank: int)
      ensures Valid()
      ensures this.paramList == paramList && this.config == config && this.rank == rank
      ensures shardClip == (clip == ClipByGlobalNorm)
      ensures !generateFlag && accumulators == map[] && clipPpMesh == None && optimized == []
    {
      this.paramList := paramList;
      this.config := config;
      this.rank := rank;
      shardClip := clip == ClipByGlobalNorm;
      generateFlag := false;
      accumulators := map[];
      clipPpMesh := None;
      optimized := [];
    }

    /** `_shard_accumulator(param)`. */
    method ShardAccumulator(p: Param)
      requires Valid()
      modifies this
      ensures Valid()
      ensures accumulators == AccAfter(config, old(accumulators), p)
      ensures paramList == old(paramList) && generateFlag == old(generateFlag)
      ensures clipPpMesh == old(clipPpMesh) && optimized == old(optimized)
    {
      var target := TargetName(config.masterWeights, p);
      accumulators := Created(accumulators, config.kinds, config.accShape, target, p.tensor.shape);
      accumulators := ShardTable(accumulators, target, p, config.shardFn);
    }

    /** `for p, g in params_grads: self._shard_accumulator(p)`. */
    method ShardAccumulators(ps: seq<Param>)
      requires Valid()
      modifies this
      ensures Valid()
      ensures accumulators == AccAfterAll(config, old(accumulators), ps)
      ensures paramList == old(paramList) && generateFlag == old(generateFlag)
      ensures clipPpMesh == old(clipPpMesh) && optimized == old(optimized)
    {
      ghost var accs0 := accumulators;
      var i := 0;
      while i < |ps|
        invariant 0 <= i <= |ps| && Valid()
        invariant accumulators == AccAfterAll(config, accs0, ps[..i])
        invariant paramList == old(paramList) && generateFlag == old(generateFlag)
        invariant clipPpMesh == old(clipPpMesh) && optimized == old(optimized)
      {
        ShardAccumulator(ps[i]);
        AccAfterAllLast(config, accs0, ps[..i + 1]);
        assert ps[..i + 1][..i] == ps[..i];
        assert ps[..i + 1][i] == ps[i];
        i := i + 1;
      }
      assert ps[..|ps|] == ps;
    }

    /** `step()`. Plain list: the trainable parameters with a gradient are
        sharded and optimized; before the first generation (and only with a
        global-norm clip) the clip's pipeline mesh is generated from the
        distinct meshes and the one-shot flag is set. A failure leaves
        everything unchanged. Parameter groups: the same per group, each
        group generating its own clip's mesh when it collected a mesh, and
        the flag set after the last group. An empty list fails at
        `_parameter_list[0]`. */
    method Step() returns (r: Result<()>)
      requires Valid()
      modifies this
      ensures Valid()
      ensures EmptyList(old(paramList)) ==> r == Err(IndexError)
      ensures r.Err? ==> r.error == IndexError || r.error == ValueError
      ensures old(paramList).Plain? ==> PlainStepped(r)
      ensures old(paramList).Grouped? ==> GroupsStepped(r)
    {
      if paramList.Plain? {
        r := StepPlain();
      } else {
        r := StepGroups();
      }
    }

    /** The outcome of `step` on a plain parameter list. */
    twostate predicate PlainStepped(r: Result<()>)
      reads this
      requires old(paramList).Plain? && old(accumulators.Keys <= config.kinds)
    {
      var ps := old(paramList).params;
      var collect := !old(generateFlag) && shardClip;
      && (r.Ok? <==> ps != [] && (collect ==> PpMeshOf(ClipIds(ps), rank).Ok?))
      && (r.Err? ==> Unchanged())
      && (r.Ok? ==>
           && paramList == old(paramList)
           && accumulators == AccAfterAll(config, old(accumulators), WithGrads(ps))
           && optimized == old(optimized) + [WithGrads(ps)]
           && generateFlag == (old(generateFlag) || shardClip)
           && clipPpMesh == (if collect then PpMeshOf(ClipIds(ps), rank).value else old(clipPpMesh)))
    }

    /** The outcome of `step` on parameter groups. */
    twostate predicate GroupsStepped(r: Result<()>)
      reads this
      requires old(paramList).Grouped? && old(accumulators.Keys <= config.kinds)
    {
      var gs := old(paramList).groups;
      && (r.Ok? <==> gs != [] && GroupsOk(gs, old(generateFlag), rank))
      && (r.Ok? ==>
           && generateFlag
           && clipPpMesh == old(clipPpMesh)
           && paramList.Grouped? && |paramList.groups| == |gs|
           && (forall i :: 0 <= i < |gs| ==> paramList.groups[i] == UpdatedGroup(gs[i], old(generateFlag), rank))
           && accumulators == AccAfterGroups(config, old(accumulators), gs)
           && optimized == old(optimized) + GroupGrads(gs))
    }

    method StepPlain() returns (r: Result<()>)
      requires Valid() && paramList.Plain?
      modifies this
      ensures Valid()
      ensures r.Err? ==> r.error == IndexError || r.error == ValueError
      ensures old(paramList).params == [] ==> r == Err(IndexError)
      ensures PlainStepped(r)
    {
      var ps := paramList.params;
      if ps == [] {
        return Err(IndexError);
      }
      var collect := !generateFlag && shardClip;
      var grads, ids := CollectParams(ps, collect);
      r := GenerateClipMesh(ids);
      if r.Err? {
        return;
      }
      ghost var mesh, flag := clipPpMesh, generateFlag;
      ShardAccumulators(grads);
      optimized := optimized + [grads];
      assert clipPpMesh == mesh && generateFlag == flag;
      assert paramList == old(paramList);
    }

    /** The plain branch's clip update: before the first generation, and only
        with a global-norm clip, the clip's pipeline mesh is generated from
        `ids` and the one-shot flag set; a failure changes nothing. */
    method GenerateClipMesh(ids: seq<seq<int>>) returns (r: Result<()>)
      requires Valid()
      modifies this
      ensures Valid()
      ensures var collect := !old(generateFlag) && shardClip;
        && (r.Ok? <==> (collect ==> PpMeshOf(ids, rank).Ok?))
        && (r.Err? ==> r.error == ValueError && Unchanged())
        && (r.Ok? ==>
             && accumulators == old(accumulators) && paramList == old(paramList) && optimized == old(optimized)
             && generateFlag == (old(generateFlag) || shardClip)
             && clipPpMesh == (if collect then PpMeshOf(ids, rank).value else old(clipPpMesh)))
    {
      if !generateFlag && shardClip {
        var pp := GeneratePpMesh(ids, rank);
        if pp.Err? {
          return Err(ValueError);
        }
        clipPpMesh := pp.value;
        generateFlag := true;
      }
      r := Ok(());
    }

    method StepGroups() returns (r: Result<()>)
      requires Valid() && paramList.Grouped?
      modifies this
      ensures Valid()
      ensures r.Err? ==> r.error == IndexError || r.error == ValueError
      ensures old(paramList).groups == [] ==> r == Err(IndexError)
      ensures GroupsStepped(r)
    {
      var gs := paramList.groups;
      if gs == [] {
        return Err(IndexError);
      }
      var newGroups;
      r, newGroups := StepEachGroup(gs);
      paramList := Grouped(newGroups);
      if r.Ok? {
        // only generate once
        generateFlag := true;
      }
    }

    /** The loop of `step` over the parameter groups. `groups` are the
        groups with the clips updated so far (the source mutates them in
        place, so a failure keeps the earlier updates). */
    method StepEachGroup(gs: seq<ParamGroup>) returns (r: Result<()>, groups: seq<ParamGroup>)
      requires Valid()
      modifies this
      ensures Valid()
      ensures r.Ok? <==> GroupsOk(gs, generateFlag, rank)
      ensures r.Err? ==> r.error == ValueError
      ensures r.Ok? ==>
        && |groups| == |gs|
        && (forall j :: 0 <= j < |gs| ==> groups[j] == UpdatedGroup(gs[j], generateFlag, rank))
        && accumulators == AccAfterGroups(config, old(accumulators), gs)
        && optimized == old(optimized) + GroupGrads(gs)
      ensures paramList == old(paramList) && generateFlag == old(generateFlag) && clipPpMesh == old(clipPpMesh)
    {
      ghost var accs0, calls0 := accumulators, optimized;
      groups := gs;
      var i := 0;
      assert gs[..0] == [];
      while i < |gs|
        invariant GroupsDone(gs, i, groups, accs0, calls0)
        invariant paramList == old(paramList) && generateFlag == old(generateFlag) && clipPpMesh == old(clipPpMesh)
      {
        var res;
        res, groups := StepGroupAt(gs, i, groups, accs0, calls0);
        if res.Err? {
          return res, groups;
        }
        i := i + 1;
      }
      AllGroupsDone(gs, groups, accs0, calls0);
      r := Ok(());
    }

    /** The state after the loop has stepped the first `i` groups of `gs`,
        all of which passed, starting from the table `accs0` and the calls
        `calls0`. */
    ghost predicate GroupsDone(gs: seq<ParamGroup>, i: nat, groups: seq<ParamGroup>,
                               accs0: Accumulators, calls0: seq<seq<Param>>)
      reads this
    {
      && Valid() && accs0.Keys <= config.kinds && i <= |gs|
      && groups == UpdatedPrefix(gs, i, generateFlag, rank)
      && GroupsOk(gs[..i], generateFlag, rank)
      && accumulators == AccAfterGroups(config, accs0, gs[..i])
      && optimized == calls0 + GroupGrads(gs[..i])
    }

    /** Once all groups are done, every group passed, every clip is updated
        and the table and calls are those of the whole list. */
    lemma AllGroupsDone(gs: seq<ParamGroup>, groups: seq<ParamGroup>,
                        accs0: Accumulators, calls0: seq<seq<Param>>)
      requires GroupsDone(gs, |gs|, groups, accs0, calls0)
      ensures GroupsOk(gs, generateFlag, rank) && |groups| == |gs|
      ensures forall j :: 0 <= j < |gs| ==> groups[j] == UpdatedGroup(gs[j], generateFlag, rank)
      ensures accumulators == AccAfterGroups(config, accs0, gs)
      ensures optimized == calls0 + GroupGrads(gs)
    {
      assert gs[..|gs|] == gs;
      UpdatedPrefixAll(gs, generateFlag, rank);
    }

    /** The `i`-th iteration of that loop: StepGroup on `gs[i]`, extending
        the accumulated table and call log by that group. */
    method StepGroupAt(gs: seq<ParamGroup>, i: nat, groups: seq<ParamGroup>,
                       ghost accs0: Accumulators, ghost calls0: seq<seq<Param>>)
      returns (r: Result<()>, groups': seq<ParamGroup>)
      requires i < |gs| && GroupsDone(gs, i, groups, accs0, calls0)
      modifies this
      ensures Valid()
      ensures r.Ok? <==> GroupOk(gs[i], generateFlag, rank)
      ensures r.Err? ==> r.error == ValueError && groups' == groups && !GroupsOk(gs, generateFlag, rank)
      ensures r.Ok? ==> GroupsDone(gs, i + 1, groups', accs0, calls0)
      ensures paramList == old(paramList) && generateFlag == old(generateFlag) && clipPpMesh == old(clipPpMesh)
    {
      var updated := StepGroup(gs[i]);
      if updated.Err? {
        assert !GroupOk(gs[i], generateFlag, rank);
        return Err(updated.error), groups;
      }
      AccAfterGroupsPrefix(config, accs0, gs, i);
      NextCalls(calls0, gs, i);
      UpdatedPrefixNext(gs, i, generateFlag, rank);
      GroupsOkSnoc(gs, i, generateFlag, rank);
      return Ok(()), groups[i := updated.value];
    }

    /** One parameter group of `step`: its clip's pipeline mesh is generated
        when the group collected a mesh (ValueError when that fails, before
        anything changes); its parameters with a gradient are sharded and
        optimized. Returns the group with its updated clip. */
    method StepGroup(g: ParamGroup) returns (r: Result<ParamGroup>)
      requires Valid()
      modifies this
      ensures Valid()
      ensures r.Ok? <==> GroupOk(g, generateFlag, rank)
      ensures r.Err? ==> r.error == ValueError && Unchanged()
      ensures r.Ok? ==>
        && r.value == UpdatedGroup(g, generateFlag, rank)
        && accumulators == AccAfterAll(config, old(accumulators), WithGrads(g.params))
        && optimized == old(optimized) + [WithGrads(g.params)]
      ensures paramList == old(paramList) && generateFlag == old(generateFlag) && clipPpMesh == old(clipPpMesh)
    {
      var grads, ids := CollectParams(g.params, !generateFlag && g.clipByGlobalNorm);
      var group := g;
      if |ids| > 0 {
        var pp := GeneratePpMesh(ids, rank);
        if pp.Err? {
          return Err(pp.error);
        }
        group := g.(ppMesh := pp.value);
      }
      ShardAccumulators(grads);
      optimized := optimized + [grads];
      r := Ok(group);
    }

    /** `state_dict()`, returning whether it created the optimizer states.
        It returns at once (false) when training has started or some state is
        already distributed; otherwise it fakes zero gradients, runs `step`
        and clears the gradients again (true). When that `step` fails, its
        ValueError leaves the faked gradients set. */
    method StateDict(state: map<string, Tensor>) returns (r: Result<bool>)
      requires Valid()
      modifies this
      ensures Valid()
      ensures EmptyList(old(paramList)) ==> r == Err(IndexError) && Unchanged()
      ensures !EmptyList(old(paramList)) && EarlyReturn(old(paramList), state) ==> r == Ok(false) && Unchanged()
      ensures !EmptyList(old(paramList)) && !EarlyReturn(old(paramList), state) ==>
        (r.Ok? ==> r.value) && (r.Err? ==> r.error == ValueError)
      ensures old(paramList).Plain? && old(paramList).params != [] && !EarlyReturn(old(paramList), state) ==>
        var ps := old(paramList).params;
        var collect := !old(generateFlag) && shardClip;
        && (r.Ok? <==> (collect ==> PpMeshOf(ClipIds(ps), rank).Ok?))
        && (r.Ok? ==>
             && accumulators == AccAfterAll(config, old(accumulators), WithGrads(Faked(ps)))
             && paramList == Plain(Cleared(Faked(ps)))
             && optimized == old(optimized) + [WithGrads(Faked(ps))]
             && generateFlag == (old(generateFlag) || shardClip)
             && clipPpMesh == (if collect then PpMeshOf(ClipIds(ps), rank).value else old(clipPpMesh)))
        && (r.Err? ==>
             && paramList == Plain(Faked(ps))
             && accumulators == old(accumulators) && optimized == old(optimized)
             && generateFlag == old(generateFlag) && clipPpMesh == old(clipPpMesh))
    {
      if EmptyList(paramList) {
        return Err(IndexError);
      }
      var started := HasStarted(AllParams(paramList));
      if started || DistState(state) {
        return Ok(false);
      }
      if paramList.Plain? {
        var faked := FakeGrads(paramList.params);
        ClipIdsFaked(paramList.params);
        paramList := Plain(faked);
      } else {
        var newGroups := FakeGroupGrads(paramList.groups);
        paramList := Grouped(newGroups);
      }
      var stepped := Step();
      if stepped.Err? {
        return Err(ValueError);
      }
      // clear_grad(set_to_zero=False)
      if paramList.Plain? {
        paramList := Plain(Cleared(paramList.params));
      } else {
        paramList := Grouped(ClearedGroups(paramList.groups));
      }
      r := Ok(true);
    }
  }

  /** `_ShardOptimizer(optimizer, shard_fn)`: only AdamW and SGD are
      accepted (AssertionError otherwise); the clip is sharded exactly when
      the optimizer clips by global norm. */
  method NewShardOptimizer(kind: OptimizerKind, paramList: ParamList, config: AccConfig,
                           clip: GradClip, rank: int) returns (r: Result<Optimizer>)
    ensures (kind == NoOptimizer || kind == OtherOptimizer) <==> r.Err?
    ensures r.Err? ==> r.error == AssertionError
    ensures r.Ok? ==>
      && fresh(r.value) && r.value.Valid()
      && r.value.paramList == paramList && r.value.config == config && r.value.rank == rank
      && r.value.shardClip == (clip == ClipByGlobalNorm) && !r.value.generateFlag
      && r.value.accumulators == map[] && r.value.clipPpMesh == None && r.value.optimized == []
  {
    if kind == NoOptimizer || kind == OtherOptimizer {
      return Err(AssertionError);
    }
    var o := new Optimizer(paramList, config, clip, rank);
    r := Ok(o);
  }
}
