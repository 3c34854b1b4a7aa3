/**
 * The static-graph side of the auto-parallel API: the user `Strategy` with
 * its `FusePasses` options, the conversion `DistModel` applies to it, and
 * `DistModel`'s mode state machine, feed-name cache and `__call__` result
 * selection. The engine that compiles and runs the programs is not part of
 * the model; what it hands back (feed lists, run outputs) are parameters.
 */
module DistModelApi {
  import opened Common

  /** A Python value stored in a configuration: a bool or anything else. */
  datatype PyValue = PyBool(b: bool) | PyOther(tag: int)

  /** Python's `v is True`. */
  predicate IsTrue(v: PyValue) { v == PyBool(true) }

  // ---------------------------------------------------------------------
  // FusePasses

  /** The three options of a `FusePasses` object. */
  datatype FusePasses = FusePasses(enable: PyValue, gemmEpilogue: PyValue, dropoutAdd: PyValue)

  /** The attributes `FusePasses.__init__` defines. */
  const FuseOptions: set<string> := {"enable", "gemm_epilogue", "dropout_add"}

  /** The value `key` holds after the `(key, value)` items were applied in
      order. */
  function LastValue(items: seq<(string, PyValue)>, key: string, default: PyValue): PyValue
  {
    if items == [] then default
    else if items[|items| - 1].0 == key then items[|items| - 1].1
    else LastValue(items[..|items| - 1], key, default)
  }

  /** A key no item names keeps its default. */
  lemma {:induction false} LastValueAbsent(items: seq<(string, PyValue)>, key: string, default: PyValue)
    requires forall i :: 0 <= i < |items| ==> items[i].0 != key
    ensures LastValue(items, key, default) == default
  {
    if items != [] {
      var n := |items| - 1;
      assert forall j :: 0 <= j < n ==> items[..n][j] == items[j];
      LastValueAbsent(items[..n], key, default);
    }
  }

  /** Otherwise the value is that of the last item naming the key. */
  lemma {:induction false} LastValueIsLast(items: seq<(string, PyValue)>, key: string, default: PyValue, i: nat)
    requires i < |items| && items[i].0 == key
    requires forall j :: i < j < |items| ==> items[j].0 != key
    ensures LastValue(items, key, default) == items[i].1
  {
    var n := |items| - 1;
    if i < n {
      assert items[..n][i] == items[i];
      assert forall j :: i < j < n ==> items[..n][j] == items[j];
      LastValueIsLast(items[..n], key, default, i);
    }
  }

  /** In a dictionary (distinct keys) the value of a key is the one stored with it. */
  lemma LastValueOfDict(items: seq<(string, PyValue)>, i: nat, default: PyValue)
    requires i < |items|
    requires forall j, k :: 0 <= j < k < |items| ==> items[j].0 != items[k].0
    ensures LastValue(items, items[i].0, default) == items[i].1
  {
    LastValueIsLast(items, items[i].0, default, i);
  }

  /** The object after all items were applied: an option the items do not
      name keeps its default `False`. */
  function Applied(items: seq<(string, PyValue)>): FusePasses
  {
    FusePasses(LastValue(items, "enable", PyBool(false)),
               LastValue(items, "gemm_epilogue", PyBool(false)),
               LastValue(items, "dropout_add", PyBool(false)))
  }

  /** Applying one more item sets that one option. */
  lemma AppliedSnoc(items: seq<(string, PyValue)>, key: string, value: PyValue)
    requires key in FuseOptions
    ensures Applied(items + [(key, value)]) == SetOption(Applied(items), key, value)
  {
    var all := items + [(key, value)];
    assert all[..|all| - 1] == items;
  }

  /** Some item names an attribute `FusePasses` does not have. */
  predicate HasUnknown(items: seq<(string, PyValue)>)
  {
    exists i :: 0 <= i < |items| && items[i].0 !in FuseOptions
  }

  /** `setattr(self, key, value)` for a known option. */
  function SetOption(f: FusePasses, key: string, value: PyValue): FusePasses
    requires key in FuseOptions
  {
    if key == "enable" then f.(enable := value)
    else if key == "gemm_epilogue" then f.(gemmEpilogue := value)
    else f.(dropoutAdd := value)
  }

  /** `FusePasses(config_dict)`: every option starts `False`; the items of
      the dictionary are applied in order, and an unknown key raises
      ValueError. */
  method NewFusePasses(config: Option<seq<(string, PyValue)>>) returns (r: Result<FusePasses>)
    ensures config.None? ==> r == Ok(FusePasses(PyBool(false), PyBool(false), PyBool(false)))
    ensures config.Some? ==> (r.Err? <==> HasUnknown(config.value))
    ensures config.Some? && r.Ok? ==> r.value == Applied(config.value)
    ensures r.Err? ==> r.error == ValueError
  {
    var f := FusePasses(PyBool(false), PyBool(false), PyBool(false));
    if config.Some? {
      var items := config.value;
      var i := 0;
      while i < |items|
        invariant 0 <= i <= |items|
        invariant forall j :: 0 <= j < i ==> items[j].0 in FuseOptions
        invariant f == Applied(items[..i])
      {
        var (key, value) := items[i];
        if key !in FuseOptions {
          return Err(ValueError);
        }
        assert items[..i + 1] == items[..i] + [(key, value)];
        AppliedSnoc(items[..i], key, value);
        f := SetOption(f, key, value);
        i := i + 1;
      }
      assert items[..|items|] == items;
    }
    r := Ok(f);
  }

  // ---------------------------------------------------------------------
  // Strategy

  /** A section of the user's configuration, handed to a configuration
      class whose code is not part of this model. */
  type Section = map<string, PyValue>

  /** The `config` argument of `Strategy`: None, a dictionary (seen through
      the four sections it may hold), or any other value. */
  datatype StrategyArg =
    | NoConfig
    | ConfigDict(sharding: Option<Section>, gradientMerge: Option<Section>, pipeline: Option<Section>,
                 fusedPasses: Option<seq<(string, PyValue)>>)
    | NotADict

  datatype Strategy = Strategy(sharding: Option<Section>, gradientMerge: Option<Section>,
                               pipeline: Option<Section>, fusedPasses: FusePasses)

  /** `Strategy(config)`: ValueError for a value that is not a dictionary;
      otherwise each sub-configuration is built from its section (absent
      sections give the defaults), and the fuse options are checked. */
  method NewStrategy(config: StrategyArg) returns (r: Result<Strategy>)
    ensures config.NotADict? ==> r == Err(ValueError)
    ensures config.NoConfig? ==>
      r == Ok(Strategy(None, None, None, FusePasses(PyBool(false), PyBool(false), PyBool(false))))
    ensures config.ConfigDict? ==>
      && (r.Err? <==> config.fusedPasses.Some? && HasUnknown(config.fusedPasses.value))
      && (r.Ok? ==>
           && r.value.sharding == config.sharding
           && r.value.gradientMerge == config.gradientMerge
           && r.value.pipeline == config.pipeline
           && r.value.fusedPasses == Applied(if config.fusedPasses.Some? then config.fusedPasses.value else []))
    ensures r.Err? ==> r.error == ValueError
  {
    if config.NotADict? {
      return Err(ValueError);
    }
    var dict := if config.NoConfig? then ConfigDict(None, None, None, None) else config;
    var fused := NewFusePasses(dict.fusedPasses);
    if fused.Err? {
      return Err(fused.error);
    }
    r := Ok(Strategy(dict.sharding, dict.gradientMerge, dict.pipeline, fused.value));
  }

  // ---------------------------------------------------------------------
  // __convert_strategy

  /** The engine's strategy: the fuse switch, the ordered list of fused
      passes to run, and the copied sections. */
  datatype InnerStrategy = InnerStrategy(
    fusedEnable: PyValue,
    fusedPassesList: seq<string>,
    sharding: Option<Section>,
    gradientMerge: Option<Section>,
    pipeline: Option<Section>)

  const GemmEpiloguePass: string := "fused_gemm_epilogue_pass"
  const DropoutAddPass: string := "fused_dropout_add_pass"

  /** `__convert_strategy(strategy)`. None stays None. Otherwise the engine
      strategy (whose fused-pass list starts as `defaults`) gets the fuse
      switch, the GEMM-epilogue pass appended exactly when that option
      `is True`, then the dropout-add pass exactly when that one is, and
      copies of the three sections. */
  function ConvertStrategy(strategy: Option<Strategy>, defaults: seq<string>): (r: Option<InnerStrategy>)
    ensures strategy.None? <==> r.None?
    ensures r.Some? ==>
      var s := strategy.value;
      var list := r.value.fusedPassesList;
      && r.value.fusedEnable == s.fusedPasses.enable
      && |defaults| <= |list| && list[..|defaults|] == defaults
      && (GemmEpiloguePass in list[|defaults|..] <==> IsTrue(s.fusedPasses.gemmEpilogue))
      && (DropoutAddPass in list[|defaults|..] <==> IsTrue(s.fusedPasses.dropoutAdd))
      && (forall k :: |defaults| <= k < |list| ==> list[k] == GemmEpiloguePass || list[k] == DropoutAddPass)
      && (forall k, l :: |defaults| <= k < l < |list| ==> list[k] == GemmEpiloguePass && list[l] == DropoutAddPass)
      && r.value.sharding == s.sharding && r.value.gradientMerge == s.gradientMerge
      && r.value.pipeline == s.pipeline
  {
    match strategy
    case None => None
    case Some(s) =>
      var gemm := if IsTrue(s.fusedPasses.gemmEpilogue) then [GemmEpiloguePass] else [];
      var dropout := if IsTrue(s.fusedPasses.dropoutAdd) then [DropoutAddPass] else [];
      var list := defaults + gemm + dropout;
      assert list[..|defaults|] == defaults;
      assert list[|defaults|..] == gemm + dropout;
      Some(InnerStrategy(s.fusedPasses.enable, list, s.sharding, s.gradientMerge, s.pipeline))
  }

  // ---------------------------------------------------------------------
  // DistModel

  datatype Mode = Train | Eval | Predict

  function ModeName(m: Mode): string
  {
    match m
    case Train => "train"
    case Eval => "eval"
    case Predict => "predict"
  }

  /** `mode in ["train", "eval", "predict"]`, read as a Mode. */
  function ParseMode(s: string): (r: Option<Mode>)
    ensures r.Some? <==> (s == "train" || s == "eval" || s == "predict")
    ensures r.Some? ==> ModeName(r.value) == s
  {
    if s == "train" then Some(Train)
    else if s == "eval" then Some(Eval)
    else if s == "predict" then Some(Predict)
    else None
  }

  /** Every mode name reads back as its mode. */
  lemma ParseModeName(m: Mode)
    ensures ParseMode(ModeName(m)) == Some(m)
  {
  }

  /** The modes `DistModel.__init__` prepares: predict always, eval when a
      loss is given, train when a loss and an optimizer are. */
  function PreparedModes(hasLoss: bool, hasOptimizer: bool): (r: set<Mode>)
    ensures Predict in r
    ensures Eval in r <==> hasLoss
    ensures Train in r <==> hasLoss && hasOptimizer
  {
    {Predict} + (if hasLoss then {Eval} else {}) + (if hasLoss && hasOptimizer then {Train} else {})
  }

  /** The mode `__init__` switches to: train, else eval, else predict. */
  function DefaultMode(hasLoss: bool, hasOptimizer: bool): (r: Mode)
    ensures r in PreparedModes(hasLoss, hasOptimizer)
    ensures r == Train <==> hasLoss && hasOptimizer
    ensures r == Eval <==> hasLoss && !hasOptimizer
    ensures r == Predict <==> !hasLoss
  {
    if hasOptimizer && hasLoss then Train
    else if hasLoss then Eval
    else Predict
  }

  /** `dict(zip(names, data))` for lists of equal length. */
  function Zip<D>(names: seq<string>, data: seq<D>): map<string, D>
    requires |names| == |data|
  {
    if names == [] then map[]
    else
      var n := |names| - 1;
      Zip(names[..n], data[..n])[names[n] := data[n]]
  }

  /** The keys are the names. */
  lemma {:induction false} ZipKeys<D>(names: seq<string>, data: seq<D>, x: string)
    requires |names| == |data|
    ensures x in Zip(names, data) <==> x in names
  {
    if names != [] {
      var n := |names| - 1;
      ZipKeys(names[..n], data[..n], x);
      assert names == names[..n] + [names[n]];
    }
  }

  /** A name maps to the datum of its last occurrence: a later name
      overwrites an earlier equal one. */
  lemma {:induction false} ZipLast<D>(names: seq<string>, data: seq<D>, i: nat)
    requires |names| == |data| && i < |names|
    requires forall j :: i < j < |names| ==> names[j] != names[i]
    ensures names[i] in Zip(names, data) && Zip(names, data)[names[i]] == data[i]
  {
    var n := |names| - 1;
    if i < n {
      assert names[..n][i] == names[i] && data[..n][i] == data[i];
      assert forall j :: i < j < n ==> names[..n][j] == names[j];
      ZipLast(names[..n], data[..n], i);
    }
  }

  class DistModel {
    /** A loss was given. */
    const hasLoss: bool
    /** The optimizer handed to the engine, by identity. */
    const optimizer: Option<nat>
    /** The modes whose programs the engine prepared. */
    const prepared: set<Mode>
    /** The converted strategy handed to the engine. */
    const innerStrategy: Option<InnerStrategy>
    /** `_mode`. */
    var mode: Option<Mode>
    /** `_feed_name_list`: the feed names cached per mode. */
    var feedNames: map<Option<Mode>, seq<string>>

    /** The prepared modes are those the constructor's arguments call for,
        and the current mode is one of them. */
    ghost predicate Valid()
      reads this
    {
      && prepared == PreparedModes(hasLoss, optimizer.Some?)
      && (mode.Some? ==> mode.value in prepared)
    }

    /** `DistModel(layer, loader, loss, optimizer, strategy)`: converts the
        strategy, prepares the modes and switches to the default mode. */
    constructor (hasLoss: bool, optimizer: Option<nat>, strategy: Option<Strategy>, defaults: seq<string>)
      ensures Valid()
      ensures this.hasLoss == hasLoss && this.optimizer == optimizer
      ensures innerStrategy == ConvertStrategy(strategy, defaults)
      ensures mode == Some(DefaultMode(hasLoss, optimizer.Some?))
      ensures feedNames == map[]
    {
      this.hasLoss := hasLoss;
      this.optimizer := optimizer;
      innerStrategy := ConvertStrategy(strategy, defaults);
      prepared := PreparedModes(hasLoss, optimizer.Some?);
      mode := Some(DefaultMode(hasLoss, optimizer.Some?));
      feedNames := map[];
    }

    /** `train()`, `eval()` and `predict()`: RuntimeError, with nothing
        changed, when the mode was not prepared; otherwise it becomes the
        current mode. */
    method SwitchMode(m: Mode) returns (r: Result<()>)
      requires Valid()
      modifies this
      ensures Valid()
      ensures r.Ok? <==> m in PreparedModes(hasLoss, optimizer.Some?)
      ensures r.Err? ==> r.error == RuntimeError && mode == old(mode)
      ensures r.Ok? ==> mode == Some(m)
      ensures feedNames == old(feedNames)
    {
      if m !in prepared {
        return Err(RuntimeError);
      }
      mode := Some(m);
      r := Ok(());
    }

    /** `__validate_mode(mode)`: None stands for the current mode (ValueError
        when there is none); a name must be one of the three modes. The
        prepared set is not consulted. */
    function ValidateMode(arg: Option<string>): (r: Result<Mode>)
      reads this
      ensures arg.None? ==> r == (if mode.None? then Err(ValueError) else Ok(mode.value))
      ensures arg.Some? ==> (r.Ok? <==> ParseMode(arg.value).Some?)
      ensures arg.Some? && r.Ok? ==> ModeName(r.value) == arg.value
      ensures r.Err? ==> r.error == ValueError
    {
      match arg
      case None => if mode.None? then Err(ValueError) else Ok(mode.value)
      case Some(s) => if ParseMode(s).None? then Err(ValueError) else Ok(ParseMode(s).value)
    }

    /** `_make_feeds(data_list)`: the current mode's feed names are fetched
        from the engine (`engineFeeds`) when none are cached or the cached
        list is empty; ValueError when their number differs from the number
        of inputs, otherwise the inputs keyed by name. */
    method MakeFeeds<D>(data: seq<D>, engineFeeds: seq<string>) returns (r: Result<map<string, D>>)
      modifies this
      ensures mode == old(mode)
      ensures feedNames == (if mode in old(feedNames) && old(feedNames)[mode] != [] then old(feedNames)
                            else old(feedNames)[mode := engineFeeds])
      ensures r.Ok? <==> |feedNames[mode]| == |data|
      ensures r.Err? ==> r.error == ValueError
      ensures r.Ok? ==> r.value == Zip(feedNames[mode], data)
    {
      if mode !in feedNames || feedNames[mode] == [] {
        feedNames := feedNames[mode := engineFeeds];
      }
      var names := feedNames[mode];
      if |names| != |data| {
        return Err(ValueError);
      }
      r := Ok(Zip(names, data));
    }

    /** `__call__(*args)`: ValueError without a mode, in train mode without
        optimizer or loss, in eval mode without loss, and for the wrong
        number of inputs. `outs` is what the engine's run returns: predict
        mode answers its "outputs" entry, the other modes its "loss" entry,
        None when the entry is missing. */
    method Call<D, O>(args: seq<D>, engineFeeds: seq<string>, outs: map<string, O>) returns (r: Result<Option<O>>)
      modifies this
      ensures mode == old(mode)
      ensures r.Err? ==> r.error == ValueError
      ensures old(mode).None? ==> r.Err? && feedNames == old(feedNames)
      ensures old(mode) == Some(Train) && (optimizer.None? || !hasLoss) ==> r.Err? && feedNames == old(feedNames)
      ensures old(mode) == Some(Eval) && !hasLoss ==> r.Err? && feedNames == old(feedNames)
      ensures old(mode).Some? && !(old(mode) == Some(Train) && (optimizer.None? || !hasLoss))
              && !(old(mode) == Some(Eval) && !hasLoss) ==>
                feedNames == (if mode in old(feedNames) && old(feedNames)[mode] != [] then old(feedNames)
                              else old(feedNames)[mode := engineFeeds])
      ensures old(Valid()) && old(mode).Some? ==> mode in feedNames && (r.Ok? <==> |feedNames[mode]| == |args|)
      ensures r.Ok? && mode == Some(Predict) ==> r.value == (if "outputs" in outs then Some(outs["outputs"]) else None)
      ensures r.Ok? && mode != Some(Predict) ==> r.value == (if "loss" in outs then Some(outs["loss"]) else None)
    {
      if mode.None? {
        return Err(ValueError);
      }
      if mode == Some(Train) && (optimizer.None? || !hasLoss) {
        return Err(ValueError);
      }
      if mode == Some(Eval) && !hasLoss {
        return Err(ValueError);
      }
      var feeds := MakeFeeds(args, engineFeeds);
      if feeds.Err? {
        return Err(feeds.error);
      }
      if mode == Some(Predict) {
        r := Ok(if "outputs" in outs then Some(outs["outputs"]) else None);
      } else {
        r := Ok(if "loss" in outs then Some(outs["loss"]) else None);
      }
    }
  }

  /** The `optimizer` argument of `to_static`: none, an optimizer, or a
      `_ShardOptimizer` wrapping one. */
  datatype OptimizerArg = NoOptimizerArg | OptimizerObj(id: nat) | ShardOptimizerObj(inner: nat)

  /** `to_static(layer, loader, loss, optimizer, strategy)`: a sharded
      optimizer is unwrapped to the optimizer it wraps before the DistModel
      is built. */
  method ToStatic(hasLoss: bool, optimizer: OptimizerArg, strategy: Option<Strategy>, defaults: seq<string>)
    returns (m: DistModel)
    ensures fresh(m) && m.Valid()
    ensures m.optimizer == (match optimizer
                              case NoOptimizerArg => None
                              case OptimizerObj(o) => Some(o)
                              case ShardOptimizerObj(inner) => Some(inner))
    ensures m.hasLoss == hasLoss && m.innerStrategy == ConvertStrategy(strategy, defaults)
    ensures m.mode == Some(DefaultMode(hasLoss, !optimizer.NoOptimizerArg?))
    ensures m.feedNames == map[]
  {
    var opt: Option<nat> := match optimizer
      case NoOptimizerArg => None
      case OptimizerObj(o) => Some(o)
      case ShardOptimizerObj(inner) => Some(inner);
    m := new DistModel(hasLoss, opt, strategy, defaults);
  }
}
