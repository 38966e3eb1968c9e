/**
 * The feature-string view of the CPU used by the Rust engine: feature
 * queries, the optimization level, classification of a brand string or of
 * the text of /proc/cpuinfo into a known target, cache sizes read from
 * sysfs, and the display names. Probe results are inputs.
 */
module CpuProbe {
  import opened Wrappers
  import opened Text

  datatype Architecture = X86_64 | Aarch64 | Other(name: string)

  datatype CacheSizes = CacheSizes(l1Data: nat, l1Instruction: nat, l2: nat, l3: nat)

  datatype CpuInfo = CpuInfo(
    vendor: string,
    brand: string,
    features: seq<string>,
    cores: nat,
    threads: nat,
    cacheSizes: CacheSizes,
    architecture: Architecture)

  datatype CpuTarget =
    | Generic | IntelN100 | IntelI9_14900HX | RaspberryPi4 | RaspberryPi5
    | AppleM1 | AppleM2 | Custom(name: string)

  datatype OptimizationLevel = Scalar | Avx2 | Avx512 | Neon

  function ArchitectureToString(a: Architecture): (r: string)
    ensures a.Other? ==> r == a.name
  {
    match a
    case X86_64 => "x86_64"
    case Aarch64 => "aarch64"
    case Other(name) => name
  }

  /** The level's name, in lower case. */
  function OptimizationLevelToString(l: OptimizationLevel): (r: string)
    ensures IsLowerFixed(r) && |r| >= 4
  {
    match l
    case Scalar => "scalar"
    case Avx2 => "avx2"
    case Avx512 => "avx512"
    case Neon => "neon"
  }

  /** The four level names are distinct, so a printed level identifies the level. */
  lemma OptimizationLevelNamesDistinct(l1: OptimizationLevel, l2: OptimizationLevel)
    ensures OptimizationLevelToString(l1) == OptimizationLevelToString(l2) <==> l1 == l2
  {
  }

  /** Case-insensitive (ASCII) membership in the feature list. */
  predicate SupportsFeature(info: CpuInfo, feature: string)
    ensures feature in info.features ==> SupportsFeature(info, feature)
    ensures SupportsFeature(info, feature) <==>
      exists i :: 0 <= i < |info.features| && ToLower(info.features[i]) == ToLower(feature)
  {
    exists i :: 0 <= i < |info.features| && EqIgnoreAsciiCase(info.features[i], feature)
  }

  /** A feature spelled in any ASCII letter case is found the same way. */
  lemma SupportsFeatureIgnoresCase(info: CpuInfo, a: string, b: string)
    requires ToLower(a) == ToLower(b)
    ensures SupportsFeature(info, a) <==> SupportsFeature(info, b)
  {
  }

  function GetOptimizationLevel(info: CpuInfo): (r: OptimizationLevel)
    ensures r == Avx512 <==> SupportsFeature(info, "avx512f")
    ensures r == Avx2 <==> !SupportsFeature(info, "avx512f") && SupportsFeature(info, "avx2")
    ensures r == Neon <==>
      !SupportsFeature(info, "avx512f") && !SupportsFeature(info, "avx2") && SupportsFeature(info, "neon")
  {
    if SupportsFeature(info, "avx512f") then Avx512
    else if SupportsFeature(info, "avx2") then Avx2
    else if SupportsFeature(info, "neon") then Neon
    else Scalar
  }

  /** Adding a feature never lowers the level to scalar, and the level only depends on the three named features. */
  lemma OptimizationLevelOfFeatures(info: CpuInfo, extra: string)
    ensures GetOptimizationLevel(info) == Scalar <==>
      !SupportsFeature(info, "avx512f") && !SupportsFeature(info, "avx2") && !SupportsFeature(info, "neon")
    ensures GetOptimizationLevel(info) != Scalar ==>
      GetOptimizationLevel(info.(features := info.features + [extra])) != Scalar
  {
    var info2 := info.(features := info.features + [extra]);
    forall f | SupportsFeature(info, f) ensures SupportsFeature(info2, f) {
      var i :| 0 <= i < |info.features| && EqIgnoreAsciiCase(info.features[i], f);
      assert info2.features[i] == info.features[i];
    }
  }

  // ---------------------------------------------------------------------
  // Target classification

  /**
   * The x86_64 target from the processor brand string (None when CPUID has
   * none): an Intel brand naming the i9-14900HX or the N100, else Generic.
   */
  function ClassifyX86Brand(brand: Option<string>): (r: CpuTarget)
    ensures r in {Generic, IntelI9_14900HX, IntelN100}
    ensures r != Generic ==> brand.Some? && Contains(ToLower(brand.value), "intel")
    ensures r == IntelI9_14900HX <==>
      (brand.Some? && Contains(ToLower(brand.value), "intel") && Contains(ToLower(brand.value), "i9-14900hx"))
    ensures r == IntelN100 ==> Contains(ToLower(brand.value), "n100")
  {
    if brand.None? then Generic
    else
      var b := ToLower(brand.value);
      if Contains(b, "intel") then
        if Contains(b, "i9-14900hx") then IntelI9_14900HX
        else if Contains(b, "n100") then IntelN100
        else Generic
      else Generic
  }

  /**
   * The aarch64 target from the text of /proc/cpuinfo (None when it cannot
   * be read): Raspberry Pi 5 before 4, and under "apple" M2 before M1.
   */
  function ClassifyArmCpuinfo(cpuinfo: Option<string>): (r: CpuTarget)
    ensures r in {Generic, RaspberryPi5, RaspberryPi4, AppleM2, AppleM1}
    ensures r == RaspberryPi5 <==> cpuinfo.Some? && Contains(ToLower(cpuinfo.value), "raspberry pi 5")
    ensures (r == AppleM1 || r == AppleM2) ==>
      (cpuinfo.Some? && Contains(ToLower(cpuinfo.value), "apple") && !Contains(ToLower(cpuinfo.value), "raspberry pi 4"))
  {
    if cpuinfo.None? then Generic
    else
      var c := ToLower(cpuinfo.value);
      if Contains(c, "raspberry pi 5") then RaspberryPi5
      else if Contains(c, "raspberry pi 4") then RaspberryPi4
      else if Contains(c, "apple") then
        if Contains(c, "m2") then AppleM2
        else if Contains(c, "m1") then AppleM1
        else Generic
      else Generic
  }

  /** A text naming both boards is a Pi 5; an Apple text naming both chips is an M2. */
  lemma ArmClassificationPriority(text: string)
    ensures Contains(ToLower(text), "raspberry pi 5") ==> ClassifyArmCpuinfo(Some(text)) == RaspberryPi5
    ensures (!Contains(ToLower(text), "raspberry pi 5") && !Contains(ToLower(text), "raspberry pi 4") &&
             Contains(ToLower(text), "apple") && Contains(ToLower(text), "m2")) ==>
      ClassifyArmCpuinfo(Some(text)) == AppleM2
  {
  }

  /** The target `CpuTarget::detect` reports; the text for the other architecture is not consulted. */
  function DetectTarget(arch: Architecture, brand: Option<string>, cpuinfo: Option<string>): (r: CpuTarget)
    ensures arch.X86_64? ==> r == ClassifyX86Brand(brand)
    ensures arch.Aarch64? ==> r == ClassifyArmCpuinfo(cpuinfo)
    ensures arch.Other? ==> r == Generic
    ensures !r.Custom?
  {
    match arch
    case X86_64 => ClassifyX86Brand(brand)
    case Aarch64 => ClassifyArmCpuinfo(cpuinfo)
    case Other(_) => Generic
  }

  // ---------------------------------------------------------------------
  // Brand and cache sizes from text

  /** The brand named by one /proc/cpuinfo line, if it is a "model name" line holding a ':'. */
  function LineBrand(line: string): Option<string>
  {
    if StartsWith(line, "Model name") || StartsWith(line, "model name") then
      var parts := Split(line, ':');
      if |parts| >= 2 then Some(Trim(parts[1])) else None
    else None
  }

  /** The aarch64 brand: the first "model name" line that holds a ':', trimmed, else "unknown". */
  function BrandFromLines(lines: seq<string>): (r: string)
  {
    if lines == [] then "unknown"
    else if LineBrand(lines[0]).Some? then LineBrand(lines[0]).value
    else BrandFromLines(lines[1..])
  }

  /** A cpuinfo text without any "model name" line gives "unknown". */
  lemma {:induction false} BrandUnknownWithoutModelLine(lines: seq<string>)
    requires forall i :: 0 <= i < |lines| ==> LineBrand(lines[i]).None?
    ensures BrandFromLines(lines) == "unknown"
  {
    if lines != [] {
      assert forall i :: 0 <= i < |lines[1..]| ==> LineBrand(lines[1..][i]).None? by {
        forall i | 0 <= i < |lines[1..]| ensures LineBrand(lines[1..][i]).None? {
          assert lines[1..][i] == lines[i + 1];
        }
      }
      BrandUnknownWithoutModelLine(lines[1..]);
    }
  }

  /** A brand read after skipped lines is that of the first line that yields one. */
  lemma {:induction false} BrandFromFirstModelLine(lines: seq<string>, k: nat)
    requires k < |lines| && LineBrand(lines[k]).Some?
    requires forall i :: 0 <= i < k ==> LineBrand(lines[i]).None?
    ensures BrandFromLines(lines) == LineBrand(lines[k]).value
  {
    if k > 0 {
      assert lines[1..][k - 1] == lines[k];
      forall i | 0 <= i < k - 1 ensures LineBrand(lines[1..][i]).None? {
        assert lines[1..][i] == lines[i + 1];
      }
      BrandFromFirstModelLine(lines[1..], k - 1);
    }
  }

  /**
   * The brand string: on x86_64 the CPUID brand, on aarch64 the first
   * usable "model name" line of the cpuinfo text, and "unknown" when the
   * source is missing or the architecture is another.
   */
  function GetBrand(arch: Architecture, cpuidBrand: Option<string>, cpuinfo: Option<string>): (r: string)
    ensures arch.X86_64? ==> r == cpuidBrand.UnwrapOr("unknown")
    ensures arch.Aarch64? && cpuinfo.Some? ==> r == BrandFromLines(Lines(cpuinfo.value))
    ensures arch.Other? || (arch.Aarch64? && cpuinfo.None?) ==> r == "unknown"
  {
    match arch
    case X86_64 => if cpuidBrand.Some? then cpuidBrand.value else "unknown"
    case Aarch64 => if cpuinfo.Some? then BrandFromLines(Lines(cpuinfo.value)) else "unknown"
    case Other(_) => "unknown"
  }

  /**
   * One sysfs cache-size file: its trimmed text must end in "K" and the rest
   * must parse as a `usize`; otherwise `fallback` stays.
   */
  function SysfsCacheKb(text: Option<string>, fallback: nat): (r: nat)
    ensures text.None? ==> r == fallback
    ensures text.Some? && !EndsWith(Trim(text.value), "K") ==> r == fallback
    ensures r != fallback ==>
      text.Some? && var t := Trim(text.value); EndsWith(t, "K") && ParseUsize(t[..|t| - 1]) == Some(r)
  {
    if text.None? then fallback else TrimmedCacheKb(Trim(text.value), fallback)
  }

  /** The size a trimmed sysfs text gives: "<usize>K", or `fallback` for anything else. */
  function TrimmedCacheKb(t: string, fallback: nat): (r: nat)
    ensures !EndsWith(t, "K") ==> r == fallback
    ensures r != fallback ==> EndsWith(t, "K") && ParseUsize(t[..|t| - 1]) == Some(r)
  {
    if !EndsWith(t, "K") then fallback
    else
      match ParseUsize(t[..|t| - 1])
      case Some(kb) => kb
      case None => fallback
  }

  lemma TrimDigitsK(n: nat)
    ensures Trim(NatToString(n) + "K\n") == NatToString(n) + "K"
  {
    var d := NatToString(n);
    var s := d + "K\n";
    assert s[0] == d[0] && !IsWhitespace(s[0]);
    assert TrimStart(s) == s;
    var u := d + "K";
    assert s[..|s| - 1] == u;
    assert TrimEnd(s) == TrimEnd(u);
    assert u[|u| - 1] == 'K';
  }

  /** The size file as the kernel writes it ("48K" and a newline) is read back exactly. */
  lemma SysfsCacheKbRoundTrip(n: nat, fallback: nat)
    requires n < USIZE_LIMIT
    ensures SysfsCacheKb(Some(NatToString(n) + "K\n"), fallback) == n
  {
    var d := NatToString(n);
    TrimDigitsK(n);
    var t := d + "K";
    assert EndsWith(t, "K");
    assert t[..|t| - 1] == d;
    ParseUsizeRoundTrip(n);
  }

  /** The aarch64 cache sizes from the index0, index2 and index3 size files; L1 instruction is always 32. */
  function DetectCacheSizesArm(index0: Option<string>, index2: Option<string>, index3: Option<string>): (r: CacheSizes)
    ensures r.l1Instruction == 32
    ensures index0.None? ==> r.l1Data == 32
    ensures index2.None? ==> r.l2 == 512
    ensures index3.None? ==> r.l3 == 8192
    ensures r.l1Data == SysfsCacheKb(index0, 32) && r.l2 == SysfsCacheKb(index2, 512)
    ensures r.l3 == SysfsCacheKb(index3, 8192)
  {
    CacheSizes(SysfsCacheKb(index0, 32), 32, SysfsCacheKb(index2, 512), SysfsCacheKb(index3, 8192))
  }
}
