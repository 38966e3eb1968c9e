/**
 * The C engine's attention bookkeeping: the key/value cache (two row-major
 * buffers of `max_seq_len` rows, each row `num_kv_heads * head_dim` floats,
 * filled from the front), the causal mask, the grouped-query head mapping
 * checked by scaled dot-product attention, the one-row step of multi-head
 * attention, and the memory-driven switch to a sliding window.
 *
 * Floats are carried as their 32-bit patterns; the floating-point
 * arithmetic of attention itself is not part of this model.
 */
module Attention {
  import opened Bytes
  import opened Arithmetic

  /**
   * `now` is `before` with positions `lo` up to `hi` overwritten by the
   * front of `src`.
   */
  ghost predicate Spliced(now: seq<f32>, before: seq<f32>, src: seq<f32>, lo: nat, hi: nat)
  {
    |now| == |before| && lo <= hi <= |now| && hi - lo <= |src| &&
    forall j :: 0 <= j < |now| ==> now[j] == (if lo <= j < hi then src[j - lo] else before[j])
  }

  /** Overwriting nothing leaves the sequence as it was. */
  lemma SplicedNothing(a: seq<f32>, src: seq<f32>, lo: nat)
    requires lo <= |a|
    ensures Spliced(a, a, src, lo, lo)
  {
  }

  /** Two adjacent splices from consecutive parts of one source make one splice. */
  lemma SplicedExtend(a: seq<f32>, before: seq<f32>, src: seq<f32>, lo: nat, hi: nat, b: seq<f32>, n: nat)
    requires Spliced(a, before, src, lo, hi)
    requires Spliced(b, a, src[hi - lo..], hi, hi + n)
    ensures Spliced(b, before, src, lo, hi + n)
  {
    forall j | 0 <= j < |b|
      ensures b[j] == (if lo <= j < hi + n then src[j - lo] else before[j])
    {
      if hi <= j < hi + n {
        assert src[hi - lo..][j - hi] == src[j - lo];
      }
    }
  }

  /** Up to the end of a splice, the result is the untouched front followed by the copied source. */
  lemma SplicedPrefix(now: seq<f32>, before: seq<f32>, src: seq<f32>, lo: nat, hi: nat)
    requires Spliced(now, before, src, lo, hi)
    ensures now[..hi] == before[..lo] + src[..hi - lo]
  {
    assert forall j :: 0 <= j < hi ==> now[..hi][j] == (before[..lo] + src[..hi - lo])[j];
  }

  /** Copies `n` floats from `src[srcOff..]` to `dst[dstOff..]` (`memcpy`, whose buffers must not overlap). */
  method Memcpy(dst: array<f32>, dstOff: nat, src: array<f32>, srcOff: nat, n: nat)
    requires dst != src
    requires dstOff + n <= dst.Length && srcOff + n <= src.Length
    modifies dst
    ensures Spliced(dst[..], old(dst[..]), src[srcOff..], dstOff, dstOff + n)
  {
    for t := 0 to n
      invariant Spliced(dst[..], old(dst[..]), src[srcOff..], dstOff, dstOff + t)
    {
      dst[dstOff + t] := src[srcOff + t];
    }
  }

  /**
   * Continues a splice of `src` into `dst`: the next `n` floats of `src`
   * go to positions `hi` up to `hi + n`.
   */
  method CopyOnward(dst: array<f32>, src: array<f32>, ghost base: seq<f32>, lo: nat, hi: nat, n: nat)
    requires dst != src && lo <= hi
    requires Spliced(dst[..], base, src[..], lo, hi)
    requires hi + n <= dst.Length && hi - lo + n <= src.Length
    modifies dst
    ensures Spliced(dst[..], base, src[..], lo, hi + n)
  {
    ghost var before := dst[..];
    Memcpy(dst, hi, src, hi - lo, n);
    assert src[hi - lo..] == src[..][hi - lo..];
    SplicedExtend(before, base, src[..], lo, hi, dst[..], n);
  }

  /** The first `n` floats of `src` copied over the front of `dst`; the result is their prefix. */
  method CopyFront(dst: array<f32>, src: array<f32>, n: nat)
    requires dst != src && n <= dst.Length && n <= src.Length
    modifies dst
    ensures Spliced(dst[..], old(dst[..]), src[..], 0, n)
    ensures dst[..n] == src[..n]
  {
    Memcpy(dst, 0, src, 0, n);
    assert src[0..] == src[..];
    SplicedPrefix(dst[..], old(dst[..]), src[..], 0, n);
  }

  /** `Qwen3KVCache`. Null buffers stand for a cache never initialised or already freed. */
  class KVCache {
    var kCache: array?<f32>
    var vCache: array?<f32>
    var cacheSize: nat
    var maxSeqLen: nat
    var headDim: nat
    var numKvHeads: nat
    ghost var Repr: set<object>

    /** Floats per cached position. */
    function RowSize(): nat
      reads this
    {
      numKvHeads * headDim
    }

    ghost predicate Valid()
      reads this, Repr
    {
      this in Repr &&
      (kCache == null <==> vCache == null) &&
      (kCache != null ==>
        kCache in Repr && vCache in Repr && kCache != vCache &&
        kCache.Length == maxSeqLen * RowSize() && vCache.Length == maxSeqLen * RowSize() &&
        cacheSize <= maxSeqLen)
    }

    /** Initialised and not freed. */
    ghost predicate Live()
      reads this, Repr
    {
      Valid() && kCache != null
    }

    /** The cached keys, position by position. */
    ghost function Keys(): seq<f32>
      requires Live()
      reads this, Repr
    {
      MulLe(cacheSize, RowSize(), maxSeqLen, RowSize());
      kCache[..cacheSize * RowSize()]
    }

    /** The cached values, position by position. */
    ghost function Values(): seq<f32>
      requires Live()
      reads this, Repr
    {
      MulLe(cacheSize, RowSize(), maxSeqLen, RowSize());
      vCache[..cacheSize * RowSize()]
    }

    /** A cache object before `qwen3_kv_cache_init`: no buffers, all sizes zero. */
    constructor ()
      ensures Valid() && fresh(Repr) && kCache == null && vCache == null
      ensures cacheSize == 0 && maxSeqLen == 0 && headDim == 0 && numKvHeads == 0
    {
      kCache := null;
      vCache := null;
      cacheSize := 0;
      maxSeqLen := 0;
      headDim := 0;
      numKvHeads := 0;
      Repr := {this};
    }

    /**
     * `qwen3_kv_cache_init`: zero sizes are refused and change nothing;
     * otherwise two zeroed buffers of `maxSeqLen` rows and an empty cache.
     * Allocation is assumed to succeed.
     */
    method Init(maxSeqLen: nat, numKvHeads: nat, headDim: nat) returns (r: int)
      requires Valid()
      modifies this
      ensures Valid() && fresh(Repr - old(Repr))
      ensures r == 0 || r == -1
      ensures r == -1 <==> maxSeqLen == 0 || numKvHeads == 0 || headDim == 0
      ensures r == -1 ==> unchanged(this)
      ensures r == 0 ==>
        Live() && cacheSize == 0 && this.maxSeqLen == maxSeqLen && this.numKvHeads == numKvHeads &&
        this.headDim == headDim && kCache.Length == maxSeqLen * numKvHeads * headDim &&
        (forall j :: 0 <= j < kCache.Length ==> kCache[j] == F32_ZERO && vCache[j] == F32_ZERO)
    {
      if maxSeqLen == 0 || numKvHeads == 0 || headDim == 0 {
        return -1;
      }
      var size := maxSeqLen * numKvHeads * headDim;
      kCache := new f32[size](_ => F32_ZERO);
      vCache := new f32[size](_ => F32_ZERO);
      cacheSize := 0;
      this.maxSeqLen := maxSeqLen;
      this.headDim := headDim;
      this.numKvHeads := numKvHeads;
      Repr := Repr + {kCache, vCache};
      r := 0;
    }

    /** `qwen3_kv_cache_free`: the buffers are released and the cache is empty. */
    method Free()
      requires Valid()
      modifies this
      ensures Valid() && Repr == old(Repr)
      ensures kCache == null && vCache == null && cacheSize == 0
      ensures maxSeqLen == old(maxSeqLen) && headDim == old(headDim) && numKvHeads == old(numKvHeads)
    {
      kCache := null;
      vCache := null;
      cacheSize := 0;
    }

    /** `qwen3_kv_cache_clear`: empty again, buffers kept. */
    method Clear()
      requires Valid()
      modifies this
      ensures Valid() && Repr == old(Repr) && cacheSize == 0
      ensures kCache == old(kCache) && vCache == old(vCache)
      ensures maxSeqLen == old(maxSeqLen) && headDim == old(headDim) && numKvHeads == old(numKvHeads)
    {
      cacheSize := 0;
    }

    /**
     * `qwen3_kv_cache_append`: a missing input, an empty batch or a batch
     * that does not fit is refused and changes nothing; otherwise input row
     * `i` becomes cache row `cacheSize + i`, and nothing else moves.
     */
    method Append(k: array?<f32>, v: array?<f32>, batchSize: nat) returns (r: int)
      requires Live()
      requires k != null ==> k !in Repr && k.Length >= batchSize * RowSize()
      requires v != null ==> v !in Repr && v.Length >= batchSize * RowSize()
      modifies this, kCache, vCache
      ensures Live() && Repr == old(Repr)
      ensures kCache == old(kCache) && vCache == old(vCache)
      ensures maxSeqLen == old(maxSeqLen) && headDim == old(headDim) && numKvHeads == old(numKvHeads)
      ensures r == 0 || r == -1
      ensures r == -1 <==> k == null || v == null || batchSize == 0 || old(cacheSize) + batchSize > maxSeqLen
      ensures r == -1 ==> cacheSize == old(cacheSize) && kCache[..] == old(kCache[..]) && vCache[..] == old(vCache[..])
      ensures r == 0 ==> cacheSize == old(cacheSize) + batchSize
      ensures r == 0 ==> Spliced(kCache[..], old(kCache[..]), k[..], old(cacheSize) * RowSize(), cacheSize * RowSize())
      ensures r == 0 ==> Spliced(vCache[..], old(vCache[..]), v[..], old(cacheSize) * RowSize(), cacheSize * RowSize())
    {
      if k == null || v == null || batchSize == 0 {
        return -1;
      }
      if cacheSize + batchSize > maxSeqLen {
        return -1;
      }
      var block := numKvHeads * headDim;
      var start := cacheSize;
      SplicedNothing(kCache[..], k[..], start * block);
      SplicedNothing(vCache[..], v[..], start * block);
      for i := 0 to batchSize
        invariant Live() && Repr == old(Repr) && kCache == old(kCache) && vCache == old(vCache)
        invariant maxSeqLen == old(maxSeqLen) && headDim == old(headDim) && numKvHeads == old(numKvHeads)
        invariant cacheSize == start + i
        invariant cacheSize * block == start * block + i * block
        invariant Spliced(kCache[..], old(kCache[..]), k[..], start * block, cacheSize * block)
        invariant Spliced(vCache[..], old(vCache[..]), v[..], start * block, cacheSize * block)
      {
        MulSucc(cacheSize, block);
        MulSucc(i, block);
        MulLe(cacheSize + 1, block, maxSeqLen, block);
        MulLe(i + 1, block, batchSize, block);
        var cacheOffset := cacheSize * block;
        CopyOnward(kCache, k, old(kCache[..]), start * block, cacheOffset, block);
        ghost var k1 := kCache[..];
        CopyOnward(vCache, v, old(vCache[..]), start * block, cacheOffset, block);
        assert kCache[..] == k1;
        cacheSize := cacheSize + 1;
      }
      r := 0;
    }

    /** A successful append extends the cached keys and values by exactly the batch. */
    method AppendRows(k: array<f32>, v: array<f32>, batchSize: nat) returns (r: int)
      requires Live()
      requires k !in Repr && k.Length >= batchSize * RowSize()
      requires v !in Repr && v.Length >= batchSize * RowSize()
      modifies this, kCache, vCache
      ensures Live() && Repr == old(Repr)
      ensures maxSeqLen == old(maxSeqLen) && headDim == old(headDim) && numKvHeads == old(numKvHeads)
      ensures kCache == old(kCache) && vCache == old(vCache)
      ensures r == 0 || r == -1
      ensures r == -1 <==> batchSize == 0 || old(cacheSize) + batchSize > maxSeqLen
      ensures r == -1 ==> cacheSize == old(cacheSize) && Keys() == old(Keys()) && Values() == old(Values())
      ensures r == 0 ==> cacheSize == old(cacheSize) + batchSize
      ensures r == 0 ==> Keys() == old(Keys()) + k[..batchSize * RowSize()]
      ensures r == 0 ==> Values() == old(Values()) + v[..batchSize * RowSize()]
    {
      ghost var oldKeys, oldValues := Keys(), Values();
      ghost var before := cacheSize * RowSize();
      r := Append(k, v, batchSize);
      if r == 0 {
        MulLe(cacheSize, RowSize(), maxSeqLen, RowSize());
        assert cacheSize * RowSize() == before + batchSize * RowSize() by {
          assert cacheSize * RowSize() == (old(cacheSize) + batchSize) * RowSize();
        }
        SplicedPrefix(kCache[..], old(kCache[..]), k[..], before, cacheSize * RowSize());
        SplicedPrefix(vCache[..], old(vCache[..]), v[..], before, cacheSize * RowSize());
      }
    }

    /**
     * `qwen3_kv_cache_get`: missing outputs or more rows than cached are
     * refused; otherwise the first `seqLen` rows are copied out and the rest
     * of each output is left as it was. The cache is not changed.
     */
    method Get(seqLen: nat, kOut: array?<f32>, vOut: array?<f32>) returns (r: int)
      requires Live()
      requires kOut != null ==> kOut !in Repr
      requires vOut != null ==> vOut !in Repr
      requires kOut != null && vOut != null && seqLen <= cacheSize ==>
        kOut != vOut && kOut.Length >= seqLen * RowSize() && vOut.Length >= seqLen * RowSize()
      modifies kOut, vOut
      ensures r == 0 || r == -1
      ensures r == -1 <==> kOut == null || vOut == null || seqLen > cacheSize
      ensures r == -1 && kOut != null ==> kOut[..] == old(kOut[..])
      ensures r == -1 && vOut != null ==> vOut[..] == old(vOut[..])
      ensures r == 0 ==> Spliced(kOut[..], old(kOut[..]), kCache[..], 0, seqLen * RowSize())
      ensures r == 0 ==> Spliced(vOut[..], old(vOut[..]), vCache[..], 0, seqLen * RowSize())
      ensures r == 0 ==> kOut[..seqLen * RowSize()] == Keys()[..seqLen * RowSize()]
      ensures r == 0 ==> vOut[..seqLen * RowSize()] == Values()[..seqLen * RowSize()]
    {
      if kOut == null || vOut == null || seqLen > cacheSize {
        return -1;
      }
      var block := numKvHeads * headDim;
      MulLe(seqLen, block, maxSeqLen, block);
      MulLe(seqLen, block, cacheSize, block);
      CopyFront(kOut, kCache, seqLen * block);
      ghost var k1 := kOut[..];
      CopyFront(vOut, vCache, seqLen * block);
      assert kOut[..] == k1;
      assert Keys()[..seqLen * block] == kCache[..seqLen * block];
      assert Values()[..seqLen * block] == vCache[..seqLen * block];
      r := 0;
    }
  }

  // -----------------------------------------------------------------------
  // Causal mask

  /** Whether query position `i` may attend to key position `j`. */
  predicate Visible(i: nat, j: nat, slidingWindow: bool, windowSize: nat)
  {
    j <= i && (!slidingWindow || j + windowSize > i)
  }

  /** Mask cell (i, j): 0 where visible, minus infinity elsewhere. */
  function MaskEntry(i: nat, j: nat, slidingWindow: bool, windowSize: nat): (r: f32)
    ensures r == F32_ZERO <==> Visible(i, j, slidingWindow, windowSize)
    ensures r != F32_ZERO ==> r == F32_NEG_INFINITY
  {
    if Visible(i, j, slidingWindow, windowSize) then F32_ZERO else F32_NEG_INFINITY
  }

  /**
   * A window only hides more: what it shows is causal, and a window wider
   * than the row index shows all that the causal mask shows. A window of
   * zero hides everything.
   */
  lemma WindowNarrowsCausalMask(i: nat, j: nat, windowSize: nat)
    ensures Visible(i, j, true, windowSize) ==> Visible(i, j, false, windowSize)
    ensures windowSize > i ==> (Visible(i, j, true, windowSize) <==> Visible(i, j, false, windowSize))
    ensures windowSize == 0 ==> !Visible(i, j, true, windowSize)
    ensures Visible(i, i, false, windowSize) && !Visible(i, i + 1, false, windowSize)
  {
  }

  /**
   * The first `upto` cells of `now` hold the mask of an `n`-wide matrix in
   * row-major order, and the remaining cells are as in `before`.
   */
  ghost predicate MaskedUpTo(now: seq<f32>, before: seq<f32>, n: nat, upto: nat, slidingWindow: bool, windowSize: nat)
  {
    |now| == |before| && upto <= |now| &&
    (forall idx :: 0 <= idx < upto ==> n > 0 && now[idx] == MaskEntry(idx / n, idx % n, slidingWindow, windowSize)) &&
    (forall idx :: upto <= idx < |now| ==> now[idx] == before[idx])
  }

  /** Writing cell (i, j) at its row-major position extends the filled part by one. */
  lemma MaskStep(a: seq<f32>, before: seq<f32>, n: nat, i: nat, j: nat, slidingWindow: bool, windowSize: nat)
    requires j < n && i * n + j < |a|
    requires MaskedUpTo(a, before, n, i * n + j, slidingWindow, windowSize)
    ensures MaskedUpTo(a[i * n + j := MaskEntry(i, j, slidingWindow, windowSize)], before, n, i * n + j + 1, slidingWindow, windowSize)
  {
    RowMajor(i, j, n);
  }

  /** `qwen3_attention_causal_mask`: fills the `seqLen` by `seqLen` mask row by row; a missing mask is ignored. */
  method CausalMask(mask: array?<f32>, seqLen: nat, slidingWindow: bool, windowSize: nat)
    requires mask != null ==> mask.Length >= seqLen * seqLen
    modifies mask
    ensures mask != null ==> MaskedUpTo(mask[..], old(mask[..]), seqLen, seqLen * seqLen, slidingWindow, windowSize)
  {
    if mask == null {
      return;
    }
    for i := 0 to seqLen
      invariant MaskedUpTo(mask[..], old(mask[..]), seqLen, i * seqLen, slidingWindow, windowSize)
    {
      MulSucc(i, seqLen);
      MulLe(i + 1, seqLen, seqLen, seqLen);
      for j := 0 to seqLen
        invariant MaskedUpTo(mask[..], old(mask[..]), seqLen, i * seqLen + j, slidingWindow, windowSize)
      {
        MaskStep(mask[..], old(mask[..]), seqLen, i, j, slidingWindow, windowSize);
        ghost var m0 := mask[..];
        mask[i * seqLen + j] := MaskEntry(i, j, slidingWindow, windowSize);
        assert mask[..] == m0[i * seqLen + j := MaskEntry(i, j, slidingWindow, windowSize)];
      }
    }
  }

  // -----------------------------------------------------------------------
  // Attention configuration and grouped-query heads

  datatype AttentionConfig = AttentionConfig(
    seqLen: nat,
    headDim: nat,
    numHeads: nat,
    numKvHeads: nat,
    scale: f32,
    causal: bool,
    useSlidingWindow: bool,
    windowSize: nat)

  /** The key/value head that query head `h` reads, for `groupSize` query heads per key/value head. */
  function KvHead(h: nat, groupSize: nat): nat
    requires groupSize > 0
  {
    h / groupSize
  }

  /**
   * With `numHeads` a multiple of `numKvHeads`, every query head maps to an
   * existing key/value head, and key/value head `g` serves exactly the
   * query heads `g * groupSize` up to `(g + 1) * groupSize`.
   */
  lemma KvHeadInRange(h: nat, numHeads: nat, numKvHeads: nat)
    requires numKvHeads > 0 && numHeads % numKvHeads == 0 && h < numHeads
    ensures numHeads / numKvHeads > 0
    ensures KvHead(h, numHeads / numKvHeads) < numKvHeads
    ensures KvHead(h, numHeads / numKvHeads) * (numHeads / numKvHeads) <= h < (KvHead(h, numHeads / numKvHeads) + 1) * (numHeads / numKvHeads)
  {
    var g := numHeads / numKvHeads;
    assert numHeads == g * numKvHeads;
    var q := h / g;
    assert q * g <= h;
    MulMonotoneIf(numKvHeads, q, g);
  }

  /**
   * The integer part of `qwen3_attention_sdpa`: it refuses a head count
   * that is not a multiple of the key/value head count, and otherwise
   * attends each query head `h` over key/value head `h / groupSize`.
   * Answers the status and the key/value head of each query head.
   */
  method SdpaHeads(config: AttentionConfig) returns (r: int, kvHeads: seq<nat>)
    requires config.numKvHeads > 0
    ensures r == 0 || r == -1
    ensures r == -1 <==> config.numHeads % config.numKvHeads != 0
    ensures r == -1 ==> kvHeads == []
    ensures r == 0 ==> |kvHeads| == config.numHeads
    ensures r == 0 ==> forall h :: 0 <= h < config.numHeads ==>
      kvHeads[h] < config.numKvHeads && kvHeads[h] == KvHead(h, config.numHeads / config.numKvHeads)
  {
    if config.numHeads % config.numKvHeads != 0 {
      return -1, [];
    }
    var groupSize := config.numHeads / config.numKvHeads;
    if config.numHeads > 0 {
      KvHeadInRange(0, config.numHeads, config.numKvHeads);
    }
    kvHeads := [];
    for h := 0 to config.numHeads
      invariant |kvHeads| == h
      invariant forall h' :: 0 <= h' < h ==> kvHeads[h'] < config.numKvHeads && kvHeads[h'] == KvHead(h', groupSize)
    {
      KvHeadInRange(h, config.numHeads, config.numKvHeads);
      kvHeads := kvHeads + [h / groupSize];
    }
    r := 0;
  }

  /**
   * The middle of `qwen3_attention_mha`: zeroed buffers for every cached
   * row, filled by `qwen3_kv_cache_get` with all of them.
   */
  method Snapshot(cache: KVCache) returns (fullK: array<f32>, fullV: array<f32>)
    requires cache.Live()
    ensures fresh(fullK) && fresh(fullV)
    ensures fullK[..] == cache.Keys() && fullV[..] == cache.Values()
  {
    var size := cache.cacheSize * (cache.numKvHeads * cache.headDim);
    fullK := new f32[size](_ => F32_ZERO);
    fullV := new f32[size](_ => F32_ZERO);
    var got := cache.Get(cache.cacheSize, fullK, fullV);
    assert fullK[..] == fullK[..size] && fullV[..] == fullV[..size];
  }

  /**
   * The bookkeeping of `qwen3_attention_mha`: append the step's key and
   * value as one row (failing, with the cache unchanged, if it is full),
   * copy out all cached rows, and attend over them with the sequence
   * length set to the number of cached rows.
   */
  method Mha(cache: KVCache, k: array<f32>, v: array<f32>, config: AttentionConfig)
    returns (r: int, fullK: array<f32>, fullV: array<f32>, attended: AttentionConfig)
    requires cache.Live()
    requires config.numKvHeads > 0
    requires config.numKvHeads == cache.numKvHeads && config.headDim == cache.headDim
    requires k !in cache.Repr && k.Length >= cache.RowSize()
    requires v !in cache.Repr && v.Length >= cache.RowSize()
    modifies cache, cache.kCache, cache.vCache
    ensures cache.Live() && cache.Repr == old(cache.Repr)
    ensures cache.maxSeqLen == old(cache.maxSeqLen)
    ensures cache.numKvHeads == old(cache.numKvHeads) && cache.headDim == old(cache.headDim)
    ensures cache.kCache == old(cache.kCache) && cache.vCache == old(cache.vCache)
    ensures r == 0 || r == -1
    ensures old(cache.cacheSize) >= cache.maxSeqLen ==>
      r == -1 && cache.cacheSize == old(cache.cacheSize) && cache.Keys() == old(cache.Keys()) &&
      cache.Values() == old(cache.Values())
    ensures old(cache.cacheSize) < cache.maxSeqLen ==> cache.cacheSize == old(cache.cacheSize) + 1
    ensures old(cache.cacheSize) < cache.maxSeqLen ==>
      cache.Keys() == old(cache.Keys()) + k[..cache.RowSize()] &&
      cache.Values() == old(cache.Values()) + v[..cache.RowSize()]
    ensures old(cache.cacheSize) < cache.maxSeqLen ==> fullK[..] == cache.Keys() && fullV[..] == cache.Values()
    ensures old(cache.cacheSize) < cache.maxSeqLen ==> attended == config.(seqLen := cache.cacheSize)
    ensures old(cache.cacheSize) < cache.maxSeqLen ==> (r == -1 <==> config.numHeads % config.numKvHeads != 0)
  {
    MulLe(1, cache.RowSize(), 1, cache.RowSize());
    var appended := cache.AppendRows(k, v, 1);
    if appended != 0 {
      return -1, new f32[0], new f32[0], config;
    }
    fullK, fullV := Snapshot(cache);
    attended := config.(seqLen := cache.cacheSize);
    var heads;
    r, heads := SdpaHeads(attended);
  }

  /** `qwen3_attention_optimize`'s estimate: queries, keys, values and scores, four bytes a float. */
  function AttentionBytes(c: AttentionConfig): nat
  {
    c.seqLen * c.numHeads * c.headDim * 4 + c.seqLen * c.numKvHeads * c.headDim * 4 +
    c.seqLen * c.numKvHeads * c.headDim * 4 + c.seqLen * c.seqLen * 4
  }

  const OPTIMIZED_WINDOW: nat := 1024

  /**
   * `qwen3_attention_optimize`: when the estimate exceeds the memory
   * available, a sliding window of 1024 positions is switched on;
   * otherwise the configuration comes back unchanged.
   */
  function Optimize(c: AttentionConfig, availableMemory: nat): (r: AttentionConfig)
    ensures r.(useSlidingWindow := c.useSlidingWindow, windowSize := c.windowSize) == c
    ensures AttentionBytes(c) > availableMemory ==> r.useSlidingWindow && r.windowSize == OPTIMIZED_WINDOW
    ensures AttentionBytes(c) <= availableMemory ==> r == c
  {
    if AttentionBytes(c) > availableMemory then c.(useSlidingWindow := true, windowSize := OPTIMIZED_WINDOW) else c
  }

  /**
   * The estimate ignores the window, so optimizing twice is optimizing
   * once, and more memory never switches a window on that less memory
   * left off.
   */
  lemma OptimizeIdempotentAndMonotone(c: AttentionConfig, a: nat, b: nat)
    ensures Optimize(Optimize(c, a), a) == Optimize(c, a)
    ensures a <= b && !Optimize(c, a).useSlidingWindow ==> !Optimize(c, b).useSlidingWindow
    ensures AttentionBytes(c) == 4 * (c.seqLen * c.numHeads * c.headDim + 2 * c.seqLen * c.numKvHeads * c.headDim + c.seqLen * c.seqLen)
  {
    assert AttentionBytes(Optimize(c, a)) == AttentionBytes(c);
  }
}
