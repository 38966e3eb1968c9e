/**
 * Strategy derivation of the Rust engine's CPU layer: SIMD width, alignment,
 * cache-block sizes, thread policy, GEMM tiles and the quantization choice.
 * The hardware facts (the CPU description, the CPUID cache word and the
 * text of /proc/meminfo) are inputs.
 */
module CpuOptimizations {
  import opened Wrappers
  import opened Bytes
  import opened Text
  import Quantization

  datatype CpuVendor = Intel | Amd | Arm | Unknown

  datatype CpuFeature =
    | Sse | Sse2 | Sse3 | Sse41 | Sse42 | Avx | Avx2 | Fma
    | Avx512F | Avx512VL | Avx512BW | Avx512DQ | Vnni | Bmi1 | Bmi2 | Popcnt
    | Neon | Fp16 | Sve | Dotprod | Aes | Sha2

  datatype CpuInfo = CpuInfo(
    vendor: CpuVendor,
    features: seq<CpuFeature>,
    cacheSize: nat,
    memoryBandwidth: nat,
    coreCount: nat,
    threadCount: nat,
    cpuFamily: u32,
    cpuModel: u32,
    cpuStepping: u32)

  datatype ParallelStrategy =
    | SingleThreaded
    | RayonThreads(maxThreads: nat)
    | RayonPool(poolSize: nat)
    | CustomPool(threads: seq<nat>)

  /** Cache sizes in KiB; the derived `Default` makes every field zero. */
  datatype CacheInfo = CacheInfo(l1CacheKb: nat, l2CacheKb: nat, l3CacheKb: nat, cacheLineSize: nat)

  const DEFAULT_CACHE_INFO: CacheInfo := CacheInfo(0, 0, 0, 0)

  datatype CacheBlockingStrategy = CacheBlockingStrategy(
    l1BlockSize: nat, l2BlockSize: nat, l3BlockSize: nat, vectorWidth: nat)

  datatype OptimizationStrategy = OptimizationStrategy(
    quantization: Quantization.QuantizationLevel,
    simdWidth: nat,
    useFma: bool,
    useAvx512: bool,
    alignment: nat,
    cacheBlocking: CacheBlockingStrategy,
    parallelStrategy: ParallelStrategy)

  const L1_BLOCK_CAP: nat := 64 * 1024
  const L2_BLOCK_CAP: nat := 256 * 1024
  const L3_BLOCK_CAP: nat := 1024 * 1024

  /** The description used where no probe exists for the architecture. */
  function GenericFallback(): (r: CpuInfo)
    ensures r.vendor == Unknown && r.features == []
    ensures r.cacheSize == 4 * 1024 * 1024 && r.memoryBandwidth == 25600
    ensures r.coreCount == 4 && r.threadCount == 4
    ensures r.cpuFamily == 0 && r.cpuModel == 0 && r.cpuStepping == 0
  {
    CpuInfo(Unknown, [], 4 * 1024 * 1024, 25600, 4, 4, 0, 0, 0)
  }

  predicate HasFeature(cpu: CpuInfo, f: CpuFeature)
  {
    f in cpu.features
  }

  // ---------------------------------------------------------------------
  // Total memory

  /** The kilobyte count of one /proc/meminfo line, if it is a readable "MemTotal:" line. */
  function LineMemTotalKb(line: string): Option<nat>
  {
    if !StartsWith(line, "MemTotal:") then None
    else
      var words := SplitWhitespace(line);
      if |words| < 2 then None else ParseUsize(words[1])
  }

  /** The kilobyte count of the first readable "MemTotal:" line. */
  function MemTotalKb(lines: seq<string>): (r: Option<nat>)
    ensures r.Some? ==> r.value < USIZE_LIMIT
  {
    if lines == [] then None
    else if LineMemTotalKb(lines[0]).Some? then LineMemTotalKb(lines[0])
    else MemTotalKb(lines[1..])
  }

  /** The first readable "MemTotal:" line wins; unreadable ones are passed over. */
  lemma {:induction false} MemTotalKbFirst(lines: seq<string>)
    ensures MemTotalKb(lines).None? <==> forall i :: 0 <= i < |lines| ==> LineMemTotalKb(lines[i]).None?
    ensures MemTotalKb(lines).Some? ==>
      exists i :: 0 <= i < |lines| && LineMemTotalKb(lines[i]) == MemTotalKb(lines) &&
                  forall j :: 0 <= j < i ==> LineMemTotalKb(lines[j]).None?
  {
    if lines == [] {
    } else if LineMemTotalKb(lines[0]).Some? {
      assert LineMemTotalKb(lines[0]) == MemTotalKb(lines);
    } else {
      var r := MemTotalKb(lines[1..]);
      assert MemTotalKb(lines) == r;
      MemTotalKbFirst(lines[1..]);
      if r.Some? {
        var i :| 0 <= i < |lines[1..]| && LineMemTotalKb(lines[1..][i]) == r &&
          forall j :: 0 <= j < i ==> LineMemTotalKb(lines[1..][j]).None?;
        assert LineMemTotalKb(lines[i + 1]) == r;
        forall j | 0 <= j < i + 1 ensures LineMemTotalKb(lines[j]).None? {
          if j > 0 { assert lines[j] == lines[1..][j - 1]; }
        }
      } else {
        forall i | 0 <= i < |lines| ensures LineMemTotalKb(lines[i]).None? {
          if i > 0 { assert lines[i] == lines[1..][i - 1]; }
        }
      }
    }
  }

  /** The guess made per vendor when /proc/meminfo gives no total. */
  function FallbackMemoryMb(vendor: CpuVendor): (r: nat)
    ensures r == 8192 <==> vendor in {Intel, Amd}
    ensures r in {4096, 8192}
  {
    match vendor
    case Intel => 8192
    case Amd => 8192
    case Arm => 4096
    case Unknown => 4096
  }

  /**
   * Total memory in MiB: the first readable "MemTotal:" line of `meminfo`
   * divided by 1024, else the vendor's guess. `meminfo` is None when the
   * file cannot be read or the system is not Linux.
   */
  function EstimateTotalMemoryMb(cpu: CpuInfo, meminfo: Option<string>): (r: nat)
    ensures meminfo.None? ==> r == FallbackMemoryMb(cpu.vendor)
    ensures meminfo.Some? && MemTotalKb(Lines(meminfo.value)).Some? ==>
      r == MemTotalKb(Lines(meminfo.value)).value / 1024
    ensures meminfo.Some? && MemTotalKb(Lines(meminfo.value)).None? ==> r == FallbackMemoryMb(cpu.vendor)
  {
    if meminfo.Some? && MemTotalKb(Lines(meminfo.value)).Some? then
      MemTotalKb(Lines(meminfo.value)).value / 1024
    else
      FallbackMemoryMb(cpu.vendor)
  }

  // ---------------------------------------------------------------------
  // Quantization choice

  /** The quantization picked for a CPU with `totalMemoryMb` of memory; the first matching rule wins. */
  function QuantizationForMemory(cpu: CpuInfo, totalMemoryMb: nat): (r: Quantization.QuantizationLevel)
    ensures r.Int8? || r == Quantization.Int4(64)
    ensures r.Int8? ==> r.groupSize in {64, 128}
    ensures r == Quantization.Int8(128) <==>
      (cpu.vendor == Intel && totalMemoryMb >= 4096 && !(totalMemoryMb >= 8192 && HasFeature(cpu, Avx2)))
    ensures r == Quantization.Int4(64) <==>
      match cpu.vendor
      case Intel => totalMemoryMb < 4096
      case Amd => !(totalMemoryMb >= 8192 && HasFeature(cpu, Avx2))
      case Arm => !HasFeature(cpu, Neon)
      case Unknown => true
  {
    match cpu.vendor
    case Intel =>
      if totalMemoryMb >= 8192 && HasFeature(cpu, Avx2) then Quantization.Int8(64)
      else if totalMemoryMb >= 4096 then Quantization.Int8(128)
      else Quantization.Int4(64)
    case Amd =>
      if totalMemoryMb >= 8192 && HasFeature(cpu, Avx2) then Quantization.Int8(64)
      else Quantization.Int4(64)
    case Arm =>
      if HasFeature(cpu, Neon) then Quantization.Int8(64) else Quantization.Int4(64)
    case Unknown => Quantization.Int4(64)
  }

  function OptimalQuantization(cpu: CpuInfo, meminfo: Option<string>): Quantization.QuantizationLevel
  {
    QuantizationForMemory(cpu, EstimateTotalMemoryMb(cpu, meminfo))
  }

  /**
   * Without a readable memory total the vendor's guess decides: Intel gets
   * Int8 (group 64 with AVX2, else 128), AMD Int8/64 only with AVX2, ARM
   * Int8/64 only with NEON, an unknown vendor Int4/64.
   */
  lemma OptimalQuantizationWithoutMeminfo(cpu: CpuInfo)
    ensures var q := OptimalQuantization(cpu, None);
      match cpu.vendor
      case Intel => q == Quantization.Int8(if HasFeature(cpu, Avx2) then 64 else 128)
      case Amd => q == (if HasFeature(cpu, Avx2) then Quantization.Int8(64) else Quantization.Int4(64))
      case Arm => q == (if HasFeature(cpu, Neon) then Quantization.Int8(64) else Quantization.Int4(64))
      case Unknown => q == Quantization.Int4(64)
  {
  }

  /** More memory never lowers the precision picked: Int4 turns into Int8, never the other way. */
  lemma QuantizationMonotoneInMemory(cpu: CpuInfo, m1: nat, m2: nat)
    requires m1 <= m2
    ensures QuantizationForMemory(cpu, m1).Int8? ==> QuantizationForMemory(cpu, m2).Int8?
    ensures QuantizationForMemory(cpu, m1) == Quantization.Int8(64) ==>
      QuantizationForMemory(cpu, m2) == Quantization.Int8(64)
  {
  }

  // ---------------------------------------------------------------------
  // Strategy

  /** Floats per vector register: the widest instruction set present decides. */
  function SimdWidth(cpu: CpuInfo): (r: nat)
    ensures r in {1, 4, 8, 16}
    ensures r == 16 <==> HasFeature(cpu, Avx512F)
    ensures r >= 8 <==> HasFeature(cpu, Avx512F) || HasFeature(cpu, Avx2) || HasFeature(cpu, Avx)
    ensures r >= 4 <==> HasFeature(cpu, Avx512F) || HasFeature(cpu, Avx2) || HasFeature(cpu, Avx) || HasFeature(cpu, Sse)
  {
    if HasFeature(cpu, Avx512F) then 16
    else if HasFeature(cpu, Avx2) then 8
    else if HasFeature(cpu, Avx) then 8
    else if HasFeature(cpu, Sse) then 4
    else 1
  }

  /**
   * The cache description `get_cache_info` returns. `cpuidEcx` is the ECX
   * word of CPUID leaf 0x80000006 on x86_64 and None on other
   * architectures; it is consulted only when AVX is present, and a zero
   * half leaves that level at the derived default, zero.
   */
  function GetCacheInfo(cpu: CpuInfo, cpuidEcx: Option<u32>): (r: CacheInfo)
    ensures r.l1CacheKb == 0 && r.cacheLineSize == 0
    ensures r.l2CacheKb < 0x1_0000 && r.l3CacheKb < 0x1_0000
    ensures (cpuidEcx.None? || !HasFeature(cpu, Avx)) ==> r == DEFAULT_CACHE_INFO
    ensures cpuidEcx.Some? && HasFeature(cpu, Avx) ==>
      r.l2CacheKb == cpuidEcx.value / 0x1_0000 && r.l3CacheKb == cpuidEcx.value % 0x1_0000
  {
    if cpuidEcx.Some? && HasFeature(cpu, Avx) then
      var ecx := cpuidEcx.value;
      var l2 := (ecx / 0x1_0000) % 0x1_0000;
      var l3 := ecx % 0x1_0000;
      CacheInfo(0, if l2 > 0 then l2 else 0, if l3 > 0 then l3 else 0, 0)
    else
      DEFAULT_CACHE_INFO
  }

  function Min(a: nat, b: nat): nat { if a <= b then a else b }

  /** A block uses a third of the level's capacity in f32 values, up to a cap. */
  function BlockSize(kb: nat, cap: nat): (r: nat)
    ensures r <= cap && 12 * r <= kb * 1024
    ensures r < cap ==> kb * 1024 < 12 * (r + 1)
  {
    Min(kb * 1024 / 4 / 3, cap)
  }

  function FromCacheInfo(ci: CacheInfo, vectorWidth: nat): (r: CacheBlockingStrategy)
    ensures r.vectorWidth == vectorWidth
    ensures r.l1BlockSize <= L1_BLOCK_CAP && r.l2BlockSize <= L2_BLOCK_CAP && r.l3BlockSize <= L3_BLOCK_CAP
    ensures r.l1BlockSize <= ci.l1CacheKb * 1024 && r.l2BlockSize <= ci.l2CacheKb * 1024
    ensures r.l3BlockSize <= ci.l3CacheKb * 1024
  {
    CacheBlockingStrategy(
      BlockSize(ci.l1CacheKb, L1_BLOCK_CAP),
      BlockSize(ci.l2CacheKb, L2_BLOCK_CAP),
      BlockSize(ci.l3CacheKb, L3_BLOCK_CAP),
      vectorWidth)
  }

  function ParallelFor(coreCount: nat): (r: ParallelStrategy)
    ensures r.SingleThreaded? <==> coreCount < 4
    ensures r.RayonThreads? ==> 1 <= r.maxThreads <= coreCount && 2 * r.maxThreads <= coreCount
    ensures r.SingleThreaded? || r.RayonThreads?
  {
    if coreCount >= 4 then
      RayonThreads(if coreCount / 2 >= 1 then coreCount / 2 else 1)
    else
      SingleThreaded
  }

  /** `OptimizationStrategy::for_cpu`, with the probes it makes supplied as inputs. */
  function ForCpu(cpu: CpuInfo, cpuidEcx: Option<u32>, meminfo: Option<string>): (r: OptimizationStrategy)
    ensures r.simdWidth == SimdWidth(cpu)
    ensures r.alignment == 4 * r.simdWidth
    ensures r.useFma <==> HasFeature(cpu, Fma)
    ensures r.useAvx512 <==> r.simdWidth == 16
    ensures r.cacheBlocking == FromCacheInfo(GetCacheInfo(cpu, cpuidEcx), r.simdWidth)
    ensures r.parallelStrategy == ParallelFor(cpu.coreCount)
    ensures r.quantization == OptimalQuantization(cpu, meminfo)
  {
    var simd := SimdWidth(cpu);
    OptimizationStrategy(
      OptimalQuantization(cpu, meminfo),
      simd,
      HasFeature(cpu, Fma),
      HasFeature(cpu, Avx512F),
      simd * 4,
      FromCacheInfo(GetCacheInfo(cpu, cpuidEcx), simd),
      ParallelFor(cpu.coreCount))
  }

  /**
   * The derived default leaves the L1 size at zero on every path, so the L1
   * block is always zero and never exceeds the L2 block; the L2 and L3
   * blocks come from the two halves of the CPUID word.
   */
  lemma ForCpuCacheBlocks(cpu: CpuInfo, cpuidEcx: Option<u32>, meminfo: Option<string>)
    ensures var b := ForCpu(cpu, cpuidEcx, meminfo).cacheBlocking;
      b.l1BlockSize == 0 && b.l1BlockSize <= b.l2BlockSize && b.vectorWidth >= 1
    ensures !HasFeature(cpu, Avx) || cpuidEcx.None? ==>
      ForCpu(cpu, cpuidEcx, meminfo).cacheBlocking == CacheBlockingStrategy(0, 0, 0, SimdWidth(cpu))
  {
  }

  /**
   * Nothing orders the L3 block above the L2 block, nor makes blocks a
   * multiple of the vector width: with AVX and an ECX word reporting a
   * 256 KiB L2 and 64 in its low half, the L2 block is 21845 and the L3
   * block 5461.
   */
  lemma ForCpuBlocksUnordered()
    ensures var cpu := GenericFallback().(features := [Avx]);
      var b := ForCpu(cpu, Some(0x0100_0040), None).cacheBlocking;
      b.l2BlockSize == 21845 && b.l3BlockSize == 5461 && b.vectorWidth == 8 &&
      b.l3BlockSize < b.l2BlockSize && b.l2BlockSize % b.vectorWidth != 0
  {
    var cpu := GenericFallback().(features := [Avx]);
    assert HasFeature(cpu, Avx) && !HasFeature(cpu, Avx512F) && !HasFeature(cpu, Avx2);
    var ci := GetCacheInfo(cpu, Some(0x0100_0040));
    assert ci.l2CacheKb == 256 && ci.l3CacheKb == 64;
  }

  /** GEMM tile (m, n, k) per vector width. */
  function GemmTileSize(simdWidth: nat): (r: (nat, nat, nat))
    ensures 1 <= r.2 <= r.1 == r.0 <= 8
    ensures simdWidth !in {4, 8, 16} ==> r == (2, 2, 2)
  {
    if simdWidth == 16 then (8, 8, 4)
    else if simdWidth == 8 then (4, 4, 4)
    else if simdWidth == 4 then (4, 4, 2)
    else (2, 2, 2)
  }

  /** Among the widths `SimdWidth` produces, a wider vector never gets a smaller tile. */
  lemma GemmTileMonotone(w1: nat, w2: nat)
    requires w1 in {1, 4, 8, 16} && w2 in {1, 4, 8, 16} && w1 <= w2
    ensures GemmTileSize(w1).0 <= GemmTileSize(w2).0
    ensures GemmTileSize(w1).1 <= GemmTileSize(w2).1
    ensures GemmTileSize(w1).2 <= GemmTileSize(w2).2
  {
  }
}
