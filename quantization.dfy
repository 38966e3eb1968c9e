/**
 * Quantization levels and CPU targets of the Rust engine: bit widths, byte
 * costs with truncating division, their text forms, the per-target policy
 * tables and memory limits.
 */
module Quantization {
  import opened Wrappers
  import opened Text
  import opened Arithmetic

  datatype QuantizationLevel = Int4(groupSize: nat) | Int8(groupSize: nat) | Fp16 | Fp32

  function BitsPerElement(q: QuantizationLevel): (r: nat)
    ensures r in {4, 8, 16, 32}
    ensures r < 16 <==> SupportsDynamic(q)
  {
    match q
    case Int4(_) => 4
    case Int8(_) => 8
    case Fp16 => 16
    case Fp32 => 32
  }

  /** The quantization group size; only the integer levels have one. */
  function GroupSize(q: QuantizationLevel): (r: Option<nat>)
    ensures r.Some? <==> SupportsDynamic(q)
    ensures r.Some? ==> r.value == q.groupSize
  {
    match q
    case Int4(g) => Some(g)
    case Int8(g) => Some(g)
    case _ => None
  }

  predicate SupportsDynamic(q: QuantizationLevel)
  {
    q.Int4? || q.Int8?
  }

  /** A group size of zero would divide by zero (a panic); every other level is always defined. */
  predicate UsableGroupSize(q: QuantizationLevel)
  {
    SupportsDynamic(q) ==> q.groupSize > 0
  }

  /** One f32 scale per complete group of `groupSize` elements. */
  function ScaleBytes(elements: nat, groupSize: nat): nat
    requires groupSize > 0
  {
    (elements / groupSize) * 4
  }

  /**
   * Estimated bytes for `elements` values: every level costs its bit width
   * per element (the bits divided by 8, rounding down), plus one f32 scale
   * per complete group when grouped.
   */
  function MemoryUsage(q: QuantizationLevel, elements: nat): (r: nat)
    requires UsableGroupSize(q)
    ensures r == elements * BitsPerElement(q) / 8 + (if SupportsDynamic(q) then (elements / q.groupSize) * 4 else 0)
  {
    match q
    case Int4(g) => (elements * 4) / 8 + ScaleBytes(elements, g)
    case Int8(g) => elements + ScaleBytes(elements, g)
    case Fp16 => elements * 2
    case Fp32 => elements * 4
  }

  /**
   * With groups of at least four elements the four levels are ordered by cost,
   * strictly once there is at least one element and groups exceed four.
   */
  lemma MemoryUsageOrdered(g: nat, elements: nat)
    requires g >= 4
    ensures MemoryUsage(Int4(g), elements) <= MemoryUsage(Int8(g), elements)
    ensures MemoryUsage(Int8(g), elements) <= MemoryUsage(Fp16, elements) <= MemoryUsage(Fp32, elements)
    ensures elements > 0 ==> MemoryUsage(Int4(g), elements) < MemoryUsage(Int8(g), elements)
    ensures elements > 0 && g > 4 ==> MemoryUsage(Int8(g), elements) < MemoryUsage(Fp16, elements)
  {
    var q, half := elements / g, (elements * 4) / 8;
    DivBounds(elements, g);
    DivBounds(elements * 4, 8);
    assert MemoryUsage(Int4(g), elements) == half + q * 4;
    assert MemoryUsage(Int8(g), elements) == elements + q * 4;
    MulMonotone(4, g, q);
    if g > 4 {
      MulMonotone(5, g, q);
    }
  }

  /** The case checked by the integration tests: 1000 elements, Int4{32} < Int8{64} < Fp16 < Fp32. */
  lemma MemoryUsageAtThousand()
    ensures MemoryUsage(Int4(32), 1000) < MemoryUsage(Int8(64), 1000) < MemoryUsage(Fp16, 1000) < MemoryUsage(Fp32, 1000)
    ensures MemoryUsage(Fp16, 1000000) == 2000000 && MemoryUsage(Fp32, 1000000) == 4000000
  {
  }

  // ---------------------------------------------------------------------
  // Text forms

  /** The `Display` text: lower case throughout, a grouped level's size in decimal after its seven-letter prefix. */
  function QuantizationToString(q: QuantizationLevel): (r: string)
    ensures IsLowerFixed(r)
    ensures SupportsDynamic(q) ==> |r| > 7 && r[7..] == NatToString(q.groupSize)
    ensures !SupportsDynamic(q) ==> |r| == 4
  {
    match q
    case Int4(g) => "int4-gs" + NatToString(g)
    case Int8(g) => "int8-gs" + NatToString(g)
    case Fp16 => "fp16"
    case Fp32 => "fp32"
  }

  /** `FromStr`: lower-case the text, then an exact name or a prefix followed by a `usize`. */
  function ParseQuantization(s: string): (r: Result<QuantizationLevel, string>)
    ensures r.Ok? && !SupportsDynamic(r.value) ==> ToLower(s) == QuantizationToString(r.value)
    ensures r.Ok? && SupportsDynamic(r.value) ==>
      |s| > 7 && ToLower(s)[..7] == QuantizationToString(r.value)[..7] && ParseUsize(ToLower(s)[7..]) == Some(r.value.groupSize)
  {
    var t := ToLower(s);
    if t == "fp32" then Ok(Fp32)
    else if t == "fp16" then Ok(Fp16)
    else if StartsWith(t, "int8-gs") then
      match ParseUsize(t[7..])
      case Some(g) => Ok(Int8(g))
      case None => Err("Invalid group size: " + t[7..])
    else if StartsWith(t, "int4-gs") then
      match ParseUsize(t[7..])
      case Some(g) => Ok(Int4(g))
      case None => Err("Invalid group size: " + t[7..])
    else Err("Invalid quantization level: " + t)
  }

  lemma DigitsAreLower(s: string)
    requires AllDigits(s)
    ensures IsLowerFixed(s)
  {
  }

  /** Printing a 4-bit level and parsing it back yields the same level. */
  lemma Int4RoundTrip(g: nat)
    requires g < USIZE_LIMIT
    ensures ParseQuantization(QuantizationToString(Int4(g))) == Ok(Int4(g))
  {
    var s := QuantizationToString(Int4(g));
    var digits := NatToString(g);
    DigitsAreLower(digits);
    ToLowerFixed(s);
    assert s[7..] == digits;
    assert s[..7] == "int4-gs";
    ParseUsizeRoundTrip(g);
  }

  /** Printing an 8-bit level and parsing it back yields the same level. */
  lemma Int8RoundTrip(g: nat)
    requires g < USIZE_LIMIT
    ensures ParseQuantization(QuantizationToString(Int8(g))) == Ok(Int8(g))
  {
    var s := QuantizationToString(Int8(g));
    var digits := NatToString(g);
    DigitsAreLower(digits);
    ToLowerFixed(s);
    assert s[7..] == digits;
    ParseUsizeRoundTrip(g);
  }

  /** Printing any level and parsing it back yields the same level. */
  lemma {:induction false} QuantizationRoundTrip(q: QuantizationLevel)
    requires SupportsDynamic(q) ==> q.groupSize < USIZE_LIMIT
    ensures ParseQuantization(QuantizationToString(q)) == Ok(q)
  {
    match q
    case Int4(g) => Int4RoundTrip(g);
    case Int8(g) => Int8RoundTrip(g);
    case Fp16 => ToLowerFixed(QuantizationToString(q));
    case Fp32 => ToLowerFixed(QuantizationToString(q));
  }

  /** Exactly the two names and the two prefixes followed by a valid `usize` are accepted. */
  lemma ParseQuantizationAccepts(s: string)
    ensures ParseQuantization(s).Ok? <==>
      var t := ToLower(s);
      t == "fp32" || t == "fp16"
      || ((StartsWith(t, "int8-gs") || StartsWith(t, "int4-gs")) && ParseUsize(t[7..]).Some?)
  {
  }

  /** A group size that is not a `usize` is rejected with the group-size message. */
  lemma ParseRejectsBadGroupSize(s: string)
    requires StartsWith(ToLower(s), "int4-gs") && ParseUsize(ToLower(s)[7..]).None?
    ensures ParseQuantization(s) == Err("Invalid group size: " + ToLower(s)[7..])
  {
    var t := ToLower(s);
    assert t != "fp32" && t != "fp16" by { assert t[0] == 'i'; }
    assert !StartsWith(t, "int8-gs") by { assert t[3] == '4'; }
  }

  // ---------------------------------------------------------------------
  // CPU targets

  datatype CpuTarget = IntelN100 | IntelI9_14900HX | RaspberryPi4 | RaspberryPi5 | GenericX86 | GenericArm

  function OptimalQuantization(t: CpuTarget): (r: QuantizationLevel)
    ensures UsableGroupSize(r)
    ensures SupportsDynamic(r) ==> r.groupSize in {32, 64, 128}
  {
    match t
    case IntelN100 => Int8(64)
    case IntelI9_14900HX => Fp16
    case RaspberryPi4 => Int4(32)
    case RaspberryPi5 => Int8(64)
    case GenericX86 => Int8(128)
    case GenericArm => Int4(64)
  }

  function MaxMemoryMb(t: CpuTarget): (r: nat)
    ensures 2048 <= r <= 32768
  {
    match t
    case IntelN100 => 4096
    case IntelI9_14900HX => 32768
    case RaspberryPi4 => 2048
    case RaspberryPi5 => 4096
    case GenericX86 => 8192
    case GenericArm => 2048
  }

  /** The smaller the target's memory budget, the fewer bits its default quantization spends. */
  lemma OptimalQuantizationFitsBudget(t: CpuTarget)
    ensures MaxMemoryMb(t) <= 2048 ==> OptimalQuantization(t).Int4?
    ensures BitsPerElement(OptimalQuantization(t)) == 16 <==> MaxMemoryMb(t) == 32768
  {
  }

  /** The target's name: lower case, so `FromStr`'s lower-casing leaves it alone. */
  function CpuTargetToString(t: CpuTarget): (r: string)
    ensures IsLowerFixed(r) && r != []
  {
    match t
    case IntelN100 => "intel-n100"
    case IntelI9_14900HX => "intel-i9-14900hx"
    case RaspberryPi4 => "raspberry-pi-4"
    case RaspberryPi5 => "raspberry-pi-5"
    case GenericX86 => "generic-x86"
    case GenericArm => "generic-arm"
  }

  /** `FromStr`: the lower-cased text must be a target's name or the alias "i9-14900hx"; otherwise the original text is quoted back. */
  function ParseCpuTarget(s: string): (r: Result<CpuTarget, string>)
    ensures r.Ok? ==> ToLower(s) == CpuTargetToString(r.value) || (ToLower(s) == "i9-14900hx" && r.value == IntelI9_14900HX)
    ensures r.Err? ==> r.error == "Invalid CPU target: " + s
  {
    var t := ToLower(s);
    if t == "intel-n100" then Ok(IntelN100)
    else if t == "intel-i9-14900hx" || t == "i9-14900hx" then Ok(IntelI9_14900HX)
    else if t == "raspberry-pi-4" then Ok(RaspberryPi4)
    else if t == "raspberry-pi-5" then Ok(RaspberryPi5)
    else if t == "generic-x86" then Ok(GenericX86)
    else if t == "generic-arm" then Ok(GenericArm)
    else Err("Invalid CPU target: " + s)
  }

  /** Every target's name parses back to that target, in any ASCII letter case. */
  lemma CpuTargetRoundTrip(t: CpuTarget, s: string)
    requires ToLower(s) == CpuTargetToString(t)
    ensures ParseCpuTarget(s) == Ok(t)
  {
  }

  lemma CpuTargetNamesLower(t: CpuTarget)
    ensures ToLower(CpuTargetToString(t)) == CpuTargetToString(t)
  {
    ToLowerFixed(CpuTargetToString(t));
  }

  /** The names, plus the alias "i9-14900hx", are the only accepted texts, and distinct targets print differently. */
  lemma ParseCpuTargetAccepts(s: string)
    ensures ParseCpuTarget(s).Ok? <==>
      (exists t :: ToLower(s) == CpuTargetToString(t)) || ToLower(s) == "i9-14900hx"
    ensures forall t1, t2 :: CpuTargetToString(t1) == CpuTargetToString(t2) ==> t1 == t2
  {
    var l := ToLower(s);
    if ParseCpuTarget(s).Ok? && l != "i9-14900hx" {
      assert l == CpuTargetToString(ParseCpuTarget(s).value);
    }
  }

  // ---------------------------------------------------------------------
  // Memory limits

  datatype MemoryLimits = MemoryLimits(maxMemoryMb: nat, maxContextLength: nat, maxBatchSize: nat)

  const DEFAULT_MEMORY_LIMITS: MemoryLimits := MemoryLimits(2048, 4096, 1)

  function LimitsForCpuTarget(t: CpuTarget): (r: MemoryLimits)
    ensures r.(maxMemoryMb := DEFAULT_MEMORY_LIMITS.maxMemoryMb) == DEFAULT_MEMORY_LIMITS
    ensures r.maxMemoryMb == MaxMemoryMb(t)
  {
    MemoryLimits(MaxMemoryMb(t), 4096, 1)
  }

  /** A usage passes exactly when it does not exceed the memory limit. */
  predicate ValidateMemoryUsage(limits: MemoryLimits, usageMb: nat)
    ensures ValidateMemoryUsage(limits, usageMb) <==> usageMb <= limits.maxMemoryMb
  {
    usageMb <= limits.maxMemoryMb
  }

  /** A target's limits admit exactly the usages up to its memory budget, so every larger budget admits more. */
  lemma TargetLimitsAdmit(t: CpuTarget, u: nat)
    ensures ValidateMemoryUsage(LimitsForCpuTarget(t), u) <==> u <= MaxMemoryMb(t)
    ensures u <= 2048 ==> ValidateMemoryUsage(LimitsForCpuTarget(t), u)
  {
  }

  // ---------------------------------------------------------------------
  // Cloud provider settings

  datatype CloudConfig = CloudConfig(
    provider: string, apiKey: string, modelName: string, baseUrl: Option<string>,
    timeoutSeconds: nat, maxTokens: nat)

  function OpenAiConfig(apiKey: string, modelName: string): (r: CloudConfig)
    ensures r.provider == "openai" && r.apiKey == apiKey && r.modelName == modelName
    ensures r.baseUrl.None? && r.timeoutSeconds == 30 && r.maxTokens == 2048
  {
    CloudConfig("openai", apiKey, modelName, None, 30, 2048)
  }

  function AnthropicConfig(apiKey: string, modelName: string): (r: CloudConfig)
    ensures r.provider == "anthropic" && r.apiKey == apiKey && r.modelName == modelName
    ensures r == OpenAiConfig(apiKey, modelName).(provider := "anthropic")
  {
    CloudConfig("anthropic", apiKey, modelName, None, 30, 2048)
  }
}
