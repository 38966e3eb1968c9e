/**
 * The Rust engine's extended model configuration: the per-target
 * constructors and by-value builders, the memory estimate, the
 * quantization/target compatibility table, validation against a set of
 * existing files, and the log-level names.
 */
module ExtendedConfig {
  import opened Wrappers
  import opened Bytes
  import opened Arithmetic
  import opened Text
  import opened Quantization
  import CheckpointHeader

  datatype ModelPaths = ModelPaths(
    modelPath: string,
    tokenizerPath: Option<string>,
    chatTemplatePath: Option<string>,
    cacheDir: Option<string>)

  datatype ContextManagement =
    | Fixed(maxLength: nat)
    | Sliding(windowSize: nat, sinkSize: nat)
    | Dynamic(maxMemoryRatio: f32)

  datatype InferenceParameters = InferenceParameters(
    temperature: f32,
    topP: f32,
    topK: nat,
    maxTokens: nat,
    seed: Option<nat>,
    streaming: bool,
    enablePromptCache: bool,
    contextManagement: ContextManagement)

  datatype LogLevel = Error | Warning | Info | Debug | Trace

  datatype AdvancedConfig = AdvancedConfig(
    parallelProcessing: bool,
    memoryMapped: bool,
    kvCacheOptimization: bool,
    cpuOptimizations: bool,
    gpuAcceleration: bool,
    logLevel: LogLevel,
    performanceMonitoring: bool,
    autoSaveConfig: bool)

  datatype ExtendedModelConfig = ExtendedModelConfig(
    base: CheckpointHeader.ModelConfig,
    quantization: QuantizationLevel,
    cpuTarget: CpuTarget,
    cloudConfig: Option<CloudConfig>,
    memoryLimits: MemoryLimits,
    modelPaths: ModelPaths,
    inferenceParams: InferenceParameters,
    advanced: AdvancedConfig)

  const DEFAULT_MODEL_PATHS: ModelPaths :=
    ModelPaths("model.bin", Some("tokenizer.json"), Some("chat_template.json"), Some(".cache"))

  const DEFAULT_INFERENCE_PARAMETERS: InferenceParameters :=
    InferenceParameters(F32_0_7, F32_0_9, 50, 512, None, true, true, Fixed(4096))

  const DEFAULT_ADVANCED_CONFIG: AdvancedConfig :=
    AdvancedConfig(true, true, true, true, false, Info, false, true)

  /** A configuration tuned for target `cpu`: its limits and quantization, no cloud provider, defaults elsewhere. */
  function ForCpuTarget(base: CheckpointHeader.ModelConfig, cpu: CpuTarget): (r: ExtendedModelConfig)
    ensures r.base == base && r.cpuTarget == cpu && r.cloudConfig.None?
    ensures r.memoryLimits == LimitsForCpuTarget(cpu) && r.quantization == OptimalQuantization(cpu)
    ensures r.modelPaths.modelPath == "model.bin" && r.inferenceParams.topK == 50
    ensures r.inferenceParams.maxTokens == 512 && r.inferenceParams.contextManagement == Fixed(4096)
    ensures r.advanced.logLevel == Info && !r.advanced.gpuAcceleration
  {
    ExtendedModelConfig(
      base, OptimalQuantization(cpu), cpu, None, LimitsForCpuTarget(cpu),
      DEFAULT_MODEL_PATHS, DEFAULT_INFERENCE_PARAMETERS, DEFAULT_ADVANCED_CONFIG)
  }

  /** `new` is `for_cpu_target` applied to the detected target, which is an input here. */
  function New(base: CheckpointHeader.ModelConfig, detected: CpuTarget): (r: ExtendedModelConfig)
    ensures r == ForCpuTarget(base, detected)
  {
    ForCpuTarget(base, detected)
  }

  function WithCloudProvider(c: ExtendedModelConfig, cloud: CloudConfig): (r: ExtendedModelConfig)
    ensures r.cloudConfig == Some(cloud)
    ensures r.(cloudConfig := c.cloudConfig) == c
  {
    c.(cloudConfig := Some(cloud))
  }

  function WithMemoryLimits(c: ExtendedModelConfig, limits: MemoryLimits): (r: ExtendedModelConfig)
    ensures r.memoryLimits == limits
    ensures r.(memoryLimits := c.memoryLimits) == c
  {
    c.(memoryLimits := limits)
  }

  /** The closure is applied as it is; nothing is validated. */
  function UpdateConfig(c: ExtendedModelConfig, f: ExtendedModelConfig -> ExtendedModelConfig): ExtendedModelConfig
  {
    f(c)
  }

  // ---------------------------------------------------------------------
  // Memory estimate

  /** Bytes counted by the estimate: quantized embedding, KV cache and activations. */
  function EstimatedBytes(c: ExtendedModelConfig): (r: nat)
    requires UsableGroupSize(c.quantization)
    ensures r >= MemoryUsage(c.quantization, c.base.dim * c.base.vocabSize * 4)
    ensures c.base.seqLen == 0 ==> r == MemoryUsage(c.quantization, c.base.dim * c.base.vocabSize * 4)
  {
    var b := c.base;
    MulLe(0, 0, b.seqLen, b.dim);
    MulLe(0, 0, b.dim, b.vocabSize);
    var positions: nat := b.seqLen * b.dim;
    var embedding: nat := b.dim * b.vocabSize;
    MulLe(0, 0, b.nLayers, positions);
    MemoryUsage(c.quantization, embedding * 4) + b.nLayers * positions * 2 + positions * 4
  }

  const MIB: nat := 1024 * 1024

  /** The estimate in whole MiB, rounded down. A zero group size would panic in the source. */
  function EstimateMemoryUsage(c: ExtendedModelConfig): (r: nat)
    requires UsableGroupSize(c.quantization)
    ensures r * MIB <= EstimatedBytes(c) < (r + 1) * MIB
  {
    EstimatedBytes(c) / MIB
  }

  /**
   * For group sizes of at least four, choosing fewer bits never raises the
   * estimate: Int4 <= Int8 <= Fp16 <= Fp32 with everything else equal.
   */
  lemma EstimateOrderedByQuantization(c: ExtendedModelConfig, g: nat)
    requires g >= 4
    ensures EstimateMemoryUsage(c.(quantization := Int4(g))) <= EstimateMemoryUsage(c.(quantization := Int8(g)))
    ensures EstimateMemoryUsage(c.(quantization := Int8(g))) <= EstimateMemoryUsage(c.(quantization := Fp16))
    ensures EstimateMemoryUsage(c.(quantization := Fp16)) <= EstimateMemoryUsage(c.(quantization := Fp32))
  {
    var e := c.base.dim * c.base.vocabSize * 4;
    MemoryUsageOrdered(g, e);
    DivMono(EstimatedBytes(c.(quantization := Int4(g))), EstimatedBytes(c.(quantization := Int8(g))), MIB);
    DivMono(EstimatedBytes(c.(quantization := Int8(g))), EstimatedBytes(c.(quantization := Fp16)), MIB);
    DivMono(EstimatedBytes(c.(quantization := Fp16)), EstimatedBytes(c.(quantization := Fp32)), MIB);
  }

  // ---------------------------------------------------------------------
  // Compatibility and validation

  /** The pairs the engine accepts: Int4 on Pi 4 or generic ARM, Int8 anywhere, Fp16 on Pi 5 or N100, Fp32 on N100 or generic x86. */
  predicate QuantizationCompatible(q: QuantizationLevel, t: CpuTarget)
    ensures q.Int8? ==> QuantizationCompatible(q, t)
    ensures t == IntelI9_14900HX ==> (QuantizationCompatible(q, t) <==> q.Int8?)
  {
    match q
    case Int4(_) => t == RaspberryPi4 || t == GenericArm
    case Int8(_) => true
    case Fp16 => t == RaspberryPi5 || t == IntelN100
    case Fp32 => t == IntelN100 || t == GenericX86
  }

  /** Every target accepts its own default quantization except the i9-14900HX, whose Fp16 is not in the table. */
  lemma DefaultQuantizationCompatibility(t: CpuTarget)
    ensures QuantizationCompatible(OptimalQuantization(t), t) <==> t != IntelI9_14900HX
    ensures QuantizationCompatible(ForCpuTarget(CheckpointHeader.ModelConfig(0, 0, 0, 0, 0, 0, 0, 0, 0, true, 0), t).quantization, t)
      <==> t != IntelI9_14900HX
  {
  }

  /** Int8 is the only level every target accepts, and each target accepts at least two levels. */
  lemma CompatibilityCoverage(t: CpuTarget, g: nat)
    ensures QuantizationCompatible(Int8(g), t)
    ensures forall q: QuantizationLevel :: (forall u: CpuTarget :: QuantizationCompatible(q, u)) ==> q.Int8?
  {
    forall q: QuantizationLevel | forall u: CpuTarget :: QuantizationCompatible(q, u)
      ensures q.Int8?
    {
      assert QuantizationCompatible(q, IntelI9_14900HX);
      assert QuantizationCompatible(q, RaspberryPi4);
    }
  }

  datatype ValidationError =
    | ModelFileNotFound(path: string)
    | MemoryLimitExceeded(estimatedMb: nat, limitMb: nat)
    | IncompatibleQuantization

  /**
   * `validate`, with the file system given as the set of existing paths.
   * The checks run in order and the first failure is reported; the
   * estimate (and so the group-size division) is reached only once the
   * model file exists.
   */
  function Validate(c: ExtendedModelConfig, existing: set<string>): (r: Result<(), ValidationError>)
    requires c.modelPaths.modelPath in existing ==> UsableGroupSize(c.quantization)
    ensures r.Ok? <==>
      (c.modelPaths.modelPath in existing &&
       EstimateMemoryUsage(c) <= c.memoryLimits.maxMemoryMb && QuantizationCompatible(c.quantization, c.cpuTarget))
    ensures c.modelPaths.modelPath !in existing ==> r == Err(ModelFileNotFound(c.modelPaths.modelPath))
    ensures r.Err? && r.error.MemoryLimitExceeded? ==>
      r.error.estimatedMb > r.error.limitMb == c.memoryLimits.maxMemoryMb
    ensures r == Err(IncompatibleQuantization) ==>
      c.modelPaths.modelPath in existing && EstimateMemoryUsage(c) <= c.memoryLimits.maxMemoryMb
  {
    if c.modelPaths.modelPath !in existing then Err(ModelFileNotFound(c.modelPaths.modelPath))
    else
      var estimate := EstimateMemoryUsage(c);
      if estimate > c.memoryLimits.maxMemoryMb then Err(MemoryLimitExceeded(estimate, c.memoryLimits.maxMemoryMb))
      else if !QuantizationCompatible(c.quantization, c.cpuTarget) then Err(IncompatibleQuantization)
      else Ok(())
  }

  /** A fresh configuration never validates while its default "model.bin" is absent. */
  lemma FreshConfigNeedsModelFile(base: CheckpointHeader.ModelConfig, t: CpuTarget, existing: set<string>)
    requires "model.bin" !in existing
    ensures Validate(ForCpuTarget(base, t), existing) == Err(ModelFileNotFound("model.bin"))
  {
  }

  /**
   * An update is not checked: a valid configuration whose memory limit is
   * lowered below the estimate by `update_config` is returned as it is and
   * no longer validates.
   */
  lemma UpdateConfigIsUnchecked(c: ExtendedModelConfig, existing: set<string>)
    requires UsableGroupSize(c.quantization)
    requires Validate(c, existing).Ok? && EstimateMemoryUsage(c) > 0
    ensures var f := (x: ExtendedModelConfig) => x.(memoryLimits := x.memoryLimits.(maxMemoryMb := 0));
      UpdateConfig(c, f).memoryLimits.maxMemoryMb == 0 &&
      UsableGroupSize(UpdateConfig(c, f).quantization) &&
      Validate(UpdateConfig(c, f), existing).Err?
  {
  }

  // ---------------------------------------------------------------------
  // Log levels

  /** The level's name, in lower case. */
  function LogLevelToString(l: LogLevel): (r: string)
    ensures IsLowerFixed(r) && r != []
  {
    match l
    case Error => "error"
    case Warning => "warning"
    case Info => "info"
    case Debug => "debug"
    case Trace => "trace"
  }

  /** `FromStr`: the lower-cased text must be a level's name; otherwise the original text is quoted back. */
  function ParseLogLevel(s: string): (r: Result<LogLevel, string>)
    ensures r.Ok? ==> ToLower(s) == LogLevelToString(r.value)
    ensures r.Err? ==> r.error == "Invalid log level: " + s
  {
    var t := ToLower(s);
    if t == "error" then Ok(Error)
    else if t == "warning" then Ok(Warning)
    else if t == "info" then Ok(Info)
    else if t == "debug" then Ok(Debug)
    else if t == "trace" then Ok(Trace)
    else Err("Invalid log level: " + s)
  }

  /** Every level's name, in any ASCII letter case, parses back to that level. */
  lemma LogLevelRoundTrip(l: LogLevel, s: string)
    requires ToLower(s) == LogLevelToString(l)
    ensures ParseLogLevel(s) == Ok(l)
  {
  }

  lemma LogLevelNamesLower(l: LogLevel)
    ensures ToLower(LogLevelToString(l)) == LogLevelToString(l)
  {
    ToLowerFixed(LogLevelToString(l));
  }

  /** Exactly the five names are accepted, and the error repeats the text as given. */
  lemma ParseLogLevelAccepts(s: string)
    ensures ParseLogLevel(s).Ok? <==> exists l :: ToLower(s) == LogLevelToString(l)
    ensures ParseLogLevel(s).Err? ==> ParseLogLevel(s).error == "Invalid log level: " + s
  {
    if ParseLogLevel(s).Ok? {
      assert ToLower(s) == LogLevelToString(ParseLogLevel(s).value);
    }
  }
}
