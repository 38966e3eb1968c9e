/**
 * The Rust engine's extended transformer: a builder whose `build` checks
 * the configuration before loading anything, an object whose configuration
 * is updated in place and then revalidated, and the memory statistics
 * reported about it. Loading the checkpoint (the underlying transformer) is
 * an oracle from the path and context length to the checkpoint's
 * configuration; CPU detection results are inputs.
 */
module ExtendedTransformer {
  import opened Wrappers
  import opened Arithmetic
  import opened Quantization
  import opened ExtendedConfig
  import CheckpointHeader
  import CpuOptimizations

  /** What the hardware probes would report, passed in instead of detected. */
  datatype Probe = Probe(cpu: CpuOptimizations.CpuInfo, cpuidEcx: Option<Bytes.u32>, meminfo: Option<string>)

  /** Loading a checkpoint from a path with an optional context-length override. */
  type Loader = (string, Option<nat>) -> Result<CheckpointHeader.ModelConfig, string>

  datatype Builder = Builder(
    config: Option<ExtendedModelConfig>,
    strategy: Option<CpuOptimizations.OptimizationStrategy>,
    cpuInfo: Option<CpuOptimizations.CpuInfo>)

  const EMPTY_BUILDER: Builder := Builder(None, None, None)

  /**
   * The strategy derived from a CPU description: vector width and FMA from
   * its features, cache blocking from the probe's cache reading, the
   * quantization from the probe's memory reading.
   */
  function StrategyFor(p: Probe, cpu: CpuOptimizations.CpuInfo): (s: CpuOptimizations.OptimizationStrategy)
    ensures s.simdWidth == CpuOptimizations.SimdWidth(cpu)
    ensures s.useFma <==> CpuOptimizations.HasFeature(cpu, CpuOptimizations.Fma)
    ensures s.cacheBlocking == CpuOptimizations.FromCacheInfo(CpuOptimizations.GetCacheInfo(cpu, p.cpuidEcx), s.simdWidth)
    ensures s.quantization == CpuOptimizations.OptimalQuantization(cpu, p.meminfo)
  {
    CpuOptimizations.ForCpu(cpu, p.cpuidEcx, p.meminfo)
  }

  /** `with_config`: the configuration plus the detected CPU and the strategy derived from it. */
  function BuilderWithConfig(config: ExtendedModelConfig, p: Probe): (r: Builder)
    ensures r.config == Some(config) && r.cpuInfo == Some(p.cpu)
    ensures r.strategy == Some(StrategyFor(p, p.cpu))
  {
    Builder(Some(config), Some(StrategyFor(p, p.cpu)), Some(p.cpu))
  }

  function SetConfig(b: Builder, config: ExtendedModelConfig): (r: Builder)
    ensures r.config == Some(config) && r.(config := b.config) == b
  {
    b.(config := Some(config))
  }

  function SetStrategy(b: Builder, s: CpuOptimizations.OptimizationStrategy): (r: Builder)
    ensures r.strategy == Some(s) && r.(strategy := b.strategy) == b
  {
    b.(strategy := Some(s))
  }

  function SetCpuInfo(b: Builder, cpu: CpuOptimizations.CpuInfo): (r: Builder)
    ensures r.cpuInfo == Some(cpu) && r.(cpuInfo := b.cpuInfo) == b
  {
    b.(cpuInfo := Some(cpu))
  }

  datatype BuildError =
    | ConfigurationRequired
    | InvalidConfiguration(cause: ValidationError)
    | TransformerFailed(message: string)

  /** The parts an extended transformer is assembled from. */
  datatype Parts = Parts(
    transformer: CheckpointHeader.ModelConfig,
    config: ExtendedModelConfig,
    strategy: CpuOptimizations.OptimizationStrategy,
    cpuInfo: CpuOptimizations.CpuInfo)

  predicate BuildDefined(b: Builder, existing: set<string>)
  {
    b.config.Some? && b.config.value.modelPaths.modelPath in existing ==> UsableGroupSize(b.config.value.quantization)
  }

  /**
   * `build`: a missing configuration fails, then an invalid one, and only
   * then is the checkpoint loaded, with the limits' context length. A
   * missing CPU description falls back to the probe, and a missing strategy
   * is derived from the CPU description actually used.
   */
  function BuildParts(b: Builder, p: Probe, existing: set<string>, load: Loader): (r: Result<Parts, BuildError>)
    requires BuildDefined(b, existing)
    ensures b.config.None? ==> r == Err(ConfigurationRequired)
    ensures b.config.Some? && Validate(b.config.value, existing).Err? ==>
      r == Err(InvalidConfiguration(Validate(b.config.value, existing).error))
    ensures r.Ok? <==>
      (b.config.Some? && Validate(b.config.value, existing).Ok? &&
       load(b.config.value.modelPaths.modelPath, Some(b.config.value.memoryLimits.maxContextLength)).Ok?)
    ensures r.Ok? ==>
      r.value.config == b.config.value &&
      r.value.transformer == load(b.config.value.modelPaths.modelPath, Some(b.config.value.memoryLimits.maxContextLength)).value &&
      r.value.cpuInfo == b.cpuInfo.UnwrapOr(p.cpu) &&
      r.value.strategy == b.strategy.UnwrapOr(StrategyFor(p, r.value.cpuInfo))
  {
    var cpu := b.cpuInfo.UnwrapOr(p.cpu);
    var strategy := b.strategy.UnwrapOr(StrategyFor(p, cpu));
    if b.config.None? then Err(ConfigurationRequired)
    else
      var config := b.config.value;
      match Validate(config, existing)
      case Err(e) => Err(InvalidConfiguration(e))
      case Ok(_) =>
        match load(config.modelPaths.modelPath, Some(config.memoryLimits.maxContextLength))
        case Err(m) => Err(TransformerFailed(m))
        case Ok(t) => Ok(Parts(t, config, strategy, cpu))
  }

  /** A configuration that fails validation never reaches the loader: the result is the same whatever it does. */
  lemma BuildValidatesBeforeLoading(b: Builder, p: Probe, existing: set<string>, load1: Loader, load2: Loader)
    requires BuildDefined(b, existing)
    requires b.config.None? || Validate(b.config.value, existing).Err?
    ensures BuildParts(b, p, existing, load1) == BuildParts(b, p, existing, load2)
    ensures BuildParts(b, p, existing, load1).Err? && !BuildParts(b, p, existing, load1).error.TransformerFailed?
  {
  }

  datatype QuantizationSavings = QuantizationSavings(originalSizeMb: nat, quantizedSizeMb: nat, savedMb: nat)

  datatype MemoryStats = MemoryStats(estimatedMemoryMb: nat, maxAllowedMb: nat, savings: QuantizationSavings)

  /** Embedding bytes as f32, as quantized, and the saving (saturating at zero), each in whole MiB. */
  function CalculateQuantizationSavings(c: ExtendedModelConfig): (r: QuantizationSavings)
    requires UsableGroupSize(c.quantization)
    ensures var e := c.base.dim * c.base.vocabSize;
      r.originalSizeMb == (e * 4) / MIB && r.quantizedSizeMb == MemoryUsage(c.quantization, e) / MIB
    ensures MemoryUsage(c.quantization, c.base.dim * c.base.vocabSize) >= c.base.dim * c.base.vocabSize * 4 ==>
      r.savedMb == 0
  {
    var original := c.base.dim * c.base.vocabSize * 4;
    var quantized := MemoryUsage(c.quantization, c.base.dim * c.base.vocabSize);
    var saved := if original >= quantized then original - quantized else 0;
    QuantizationSavings(original / MIB, quantized / MIB, saved / MIB)
  }

  lemma DivSum(x: nat, y: nat, d: nat)
    requires d > 0
    ensures x / d + y / d <= (x + y) / d <= x / d + y / d + 1
  {
    var qx, qy := x / d, y / d;
    var rx, ry := x % d, y % d;
    assert x == qx * d + rx && y == qy * d + ry;
    MulAddDistrib(qx, qy, d);
    if rx + ry < d {
      DivUnique(x + y, d, qx + qy, rx + ry);
    } else {
      MulSucc(qx + qy, d);
      DivUnique(x + y, d, qx + qy + 1, rx + ry - d);
    }
  }

  /**
   * Whenever quantizing does not grow the table (any group of two or more
   * elements), the saving plus the quantized size is the original size, up
   * to one MiB lost to rounding; with groups of one the saving saturates.
   */
  lemma SavingsAddUp(c: ExtendedModelConfig)
    requires UsableGroupSize(c.quantization)
    requires SupportsDynamic(c.quantization) ==> c.quantization.groupSize >= 2
    ensures var s := CalculateQuantizationSavings(c);
      s.savedMb + s.quantizedSizeMb <= s.originalSizeMb <= s.savedMb + s.quantizedSizeMb + 1
  {
    var e := c.base.dim * c.base.vocabSize;
    var quantized := MemoryUsage(c.quantization, e);
    assert quantized <= e * 4 by {
      match c.quantization
      case Int4(g) =>
        assert (e * 4) / 8 <= 2 * e;
        DivAtMostHalf(e, g);
      case Int8(g) =>
        DivAtMostHalf(e, g);
      case Fp16 =>
      case Fp32 =>
    }
    DivSum(e * 4 - quantized, quantized, MIB);
  }

  lemma DivAtMostHalf(e: nat, g: nat)
    requires g >= 2
    ensures (e / g) * 4 <= 2 * e
  {
    assert (e / g) * g <= e;
    assert (e / g) * 2 <= (e / g) * g;
  }

  /** A group size of one makes Int8 cost five bytes per element, more than f32, so nothing is saved. */
  lemma SavingsSaturate(c: ExtendedModelConfig)
    requires c.quantization == Int8(1)
    ensures CalculateQuantizationSavings(c).savedMb == 0
  {
  }

  /** The statistics of a configuration: the estimate (which never fails) and the memory limit. */
  function MemoryStatsOf(c: ExtendedModelConfig): (r: MemoryStats)
    requires UsableGroupSize(c.quantization)
    ensures r.estimatedMemoryMb == EstimateMemoryUsage(c) && r.maxAllowedMb == c.memoryLimits.maxMemoryMb
    ensures r.savings == CalculateQuantizationSavings(c)
  {
    MemoryStats(EstimateMemoryUsage(c), c.memoryLimits.maxMemoryMb, CalculateQuantizationSavings(c))
  }

  /** The assembled engine; only its configuration changes after construction. */
  class ExtendedTransformer {
    const transformer: CheckpointHeader.ModelConfig
    var config: ExtendedModelConfig
    const strategy: CpuOptimizations.OptimizationStrategy
    const cpuInfo: CpuOptimizations.CpuInfo

    constructor (parts: Parts)
      ensures transformer == parts.transformer && config == parts.config
      ensures strategy == parts.strategy && cpuInfo == parts.cpuInfo
    {
      transformer := parts.transformer;
      config := parts.config;
      strategy := parts.strategy;
      cpuInfo := parts.cpuInfo;
    }

    /**
     * `update_config`: the closure's change is stored first and then
     * validated; an invalid result is reported but not rolled back.
     */
    method UpdateConfig(f: ExtendedModelConfig -> ExtendedModelConfig, existing: set<string>)
      returns (r: Result<(), ValidationError>)
      requires f(config).modelPaths.modelPath in existing ==> UsableGroupSize(f(config).quantization)
      modifies this
      ensures config == f(old(config))
      ensures r == Validate(config, existing)
    {
      config := f(config);
      r := Validate(config, existing);
    }

    function Stats(): (r: MemoryStats)
      requires UsableGroupSize(config.quantization)
      reads this
      ensures r == MemoryStatsOf(config)
      ensures r.maxAllowedMb == config.memoryLimits.maxMemoryMb
    {
      MemoryStatsOf(config)
    }
  }

  /** `build`, allocating the engine from the parts `BuildParts` describes. */
  method Build(b: Builder, p: Probe, existing: set<string>, load: Loader)
    returns (r: Result<ExtendedTransformer, BuildError>)
    requires BuildDefined(b, existing)
    ensures BuildParts(b, p, existing, load).Err? ==> r == Err(BuildParts(b, p, existing, load).error)
    ensures BuildParts(b, p, existing, load).Ok? ==>
      (r.Ok? && fresh(r.value) &&
       r.value.config == BuildParts(b, p, existing, load).value.config &&
       r.value.transformer == BuildParts(b, p, existing, load).value.transformer &&
       r.value.strategy == BuildParts(b, p, existing, load).value.strategy &&
       r.value.cpuInfo == BuildParts(b, p, existing, load).value.cpuInfo)
  {
    match BuildParts(b, p, existing, load)
    case Err(e) => r := Err(e);
    case Ok(parts) =>
      var t := new ExtendedTransformer(parts);
      r := Ok(t);
  }

  /**
   * `new` and `for_cpu_target`: load the checkpoint without an override,
   * derive the configuration from its header for `target`, and record the
   * path actually loaded in place of the default "model.bin".
   */
  function CreateParts(modelPath: string, target: CpuTarget, p: Probe, load: Loader): (r: Result<Parts, string>)
    ensures r.Ok? <==> load(modelPath, None).Ok?
    ensures r.Ok? ==>
      r.value.transformer == load(modelPath, None).value &&
      r.value.config == ForCpuTarget(load(modelPath, None).value, target).(modelPaths := r.value.config.modelPaths) &&
      r.value.config.modelPaths == DEFAULT_MODEL_PATHS.(modelPath := modelPath) &&
      r.value.cpuInfo == p.cpu && r.value.strategy == StrategyFor(p, p.cpu)
  {
    match load(modelPath, None)
    case Err(m) => Err(m)
    case Ok(base) =>
      var config := ForCpuTarget(base, target);
      Ok(Parts(base, config.(modelPaths := config.modelPaths.(modelPath := modelPath)), StrategyFor(p, p.cpu), p.cpu))
  }

  /** `ExtendedTransformer::new` uses the detected target; `for_cpu_target` the given one. */
  method Create(modelPath: string, target: CpuTarget, p: Probe, load: Loader)
    returns (r: Result<ExtendedTransformer, string>)
    ensures CreateParts(modelPath, target, p, load).Err? ==> r == Err(CreateParts(modelPath, target, p, load).error)
    ensures CreateParts(modelPath, target, p, load).Ok? ==>
      (r.Ok? && fresh(r.value) &&
       r.value.config == CreateParts(modelPath, target, p, load).value.config &&
       r.value.transformer == CreateParts(modelPath, target, p, load).value.transformer &&
       r.value.strategy == CreateParts(modelPath, target, p, load).value.strategy &&
       r.value.cpuInfo == CreateParts(modelPath, target, p, load).value.cpuInfo)
  {
    match CreateParts(modelPath, target, p, load)
    case Err(m) => r := Err(m);
    case Ok(parts) =>
      var t := new ExtendedTransformer(parts);
      r := Ok(t);
  }
}
