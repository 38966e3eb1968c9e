/**
 * The C engine's transformer skeleton: configuration validation, model
 * initialisation (one key/value cache of 32 rows per layer) and the
 * integer side of the forward pass, which refuses sequences longer than
 * the position limit and appends one cache row per layer per call.
 * The numerics (embeddings, RMS norm, SwiGLU, projections) are not part of
 * this model.
 */
module Transformer {
  import opened Bytes
  import Attention
  import Arithmetic

  datatype TransformerConfig = TransformerConfig(
    hiddenSize: nat,
    intermediateSize: nat,
    numAttentionHeads: nat,
    numKeyValueHeads: nat,
    headDim: nat,
    maxPositionEmbeddings: nat,
    rmsNormEps: f32,
    ropeTheta: f32,
    useSlidingWindow: bool,
    slidingWindow: nat)

  /**
   * `qwen3_transformer_config_init`: every field is written first (the
   * head size is the hidden size divided by the head count, the sliding
   * window off), then the result is checked; the written configuration is
   * returned whether or not the checks pass. The divisions need non-zero
   * head counts where they are reached.
   */
  function ConfigInit(hiddenSize: nat, intermediateSize: nat, numAttentionHeads: nat, numKeyValueHeads: nat,
                      maxPositionEmbeddings: nat, rmsNormEps: f32, ropeTheta: f32): (r: (int, TransformerConfig))
    requires numAttentionHeads > 0
    requires hiddenSize >= numAttentionHeads && hiddenSize % numAttentionHeads == 0 ==> numKeyValueHeads > 0
    ensures r.0 == 0 || r.0 == -1
    ensures r.0 == 0 <==>
      hiddenSize >= numAttentionHeads && hiddenSize % numAttentionHeads == 0 &&
      numAttentionHeads % numKeyValueHeads == 0
    ensures r.1.hiddenSize == hiddenSize && r.1.intermediateSize == intermediateSize
    ensures r.1.numAttentionHeads == numAttentionHeads && r.1.numKeyValueHeads == numKeyValueHeads
    ensures r.1.maxPositionEmbeddings == maxPositionEmbeddings
    ensures r.1.rmsNormEps == rmsNormEps && r.1.ropeTheta == ropeTheta
    ensures !r.1.useSlidingWindow && r.1.slidingWindow == 0
    ensures r.1.headDim * numAttentionHeads <= hiddenSize < (r.1.headDim + 1) * numAttentionHeads
    ensures r.0 == 0 ==> r.1.headDim > 0 && r.1.headDim * numAttentionHeads == hiddenSize
  {
    var config := TransformerConfig(hiddenSize, intermediateSize, numAttentionHeads, numKeyValueHeads,
                                    HeadDim(hiddenSize, numAttentionHeads), maxPositionEmbeddings, rmsNormEps, ropeTheta,
                                    false, 0);
    if config.headDim == 0 || hiddenSize % numAttentionHeads != 0 then (-1, config)
    else if numAttentionHeads % numKeyValueHeads != 0 then (-1, config)
    else (0, config)
  }

  /** The width of one head: the hidden width divided, rounding down, among the heads. */
  function HeadDim(hiddenSize: nat, numAttentionHeads: nat): (d: nat)
    requires numAttentionHeads > 0
    ensures d * numAttentionHeads <= hiddenSize < (d + 1) * numAttentionHeads
    ensures d == 0 <==> hiddenSize < numAttentionHeads
    ensures hiddenSize % numAttentionHeads == 0 ==> d * numAttentionHeads == hiddenSize
  {
    Arithmetic.DivBounds(hiddenSize, numAttentionHeads);
    hiddenSize / numAttentionHeads
  }

  /**
   * The shapes the engine's own tests use: 768 wide with 12 heads gives
   * heads of 64 and is accepted; 13 heads do not divide 768, and 12 query
   * heads cannot share 5 key/value heads.
   */
  lemma ConfigInitExamples(eps: f32, theta: f32)
    ensures ConfigInit(768, 3072, 12, 12, 2048, eps, theta).0 == 0
    ensures ConfigInit(768, 3072, 12, 12, 2048, eps, theta).1.headDim == 64
    ensures ConfigInit(768, 3072, 13, 13, 2048, eps, theta).0 == -1
    ensures ConfigInit(768, 3072, 12, 5, 2048, eps, theta).0 == -1
  {
  }

  /** An accepted configuration gives every query head a key/value head, as attention requires. */
  lemma AcceptedConfigGroupsHeads(hiddenSize: nat, intermediateSize: nat, numAttentionHeads: nat, numKeyValueHeads: nat,
                                  maxPositionEmbeddings: nat, eps: f32, theta: f32, h: nat)
    requires numAttentionHeads > 0
    requires hiddenSize >= numAttentionHeads && hiddenSize % numAttentionHeads == 0 ==> numKeyValueHeads > 0
    requires ConfigInit(hiddenSize, intermediateSize, numAttentionHeads, numKeyValueHeads, maxPositionEmbeddings, eps, theta).0 == 0
    requires h < numAttentionHeads
    ensures numKeyValueHeads > 0
    ensures Attention.KvHead(h, numAttentionHeads / numKeyValueHeads) < numKeyValueHeads
  {
    Attention.KvHeadInRange(h, numAttentionHeads, numKeyValueHeads);
  }

  /** The number of rows in each layer's key/value cache. */
  const LAYER_CACHE_ROWS: nat := 32

  /** The hidden size the layer forward pass assumes, whatever the configuration says. */
  const LAYER_HIDDEN_SIZE: nat := 768

  /** The head count the layer forward pass assumes, for query and key/value heads alike. */
  const LAYER_HEADS: nat := 12

  /** Where row `i` of a buffer of `hidden`-float rows ends. */
  function RowEnd(i: nat, hidden: nat): nat
  {
    (i + 1) * hidden
  }

  /**
   * The embedding loop of `qwen3_transformer_forward` writes rows
   * `0 .. seqLen - 1` of `hidden` floats each into a buffer allocated for
   * 32 such rows (the layers' work buffers are sized the same way): every
   * row ends inside it.
   */
  predicate EmbeddingRowsFit(seqLen: nat, hidden: nat)
  {
    forall i :: 0 <= i < seqLen ==> RowEnd(i, hidden) <= LAYER_CACHE_ROWS * hidden
  }

  /** With rows of at least one float, the rows fit exactly when there are at most 32 of them. */
  lemma EmbeddingRowsFitIff(seqLen: nat, hidden: nat)
    requires hidden > 0
    ensures EmbeddingRowsFit(seqLen, hidden) <==> seqLen <= LAYER_CACHE_ROWS
  {
    if seqLen <= LAYER_CACHE_ROWS {
      forall i | 0 <= i < seqLen ensures RowEnd(i, hidden) <= LAYER_CACHE_ROWS * hidden {
        Arithmetic.MulMonotoneIf(i + 1, LAYER_CACHE_ROWS, hidden);
      }
    } else {
      assert RowEnd(LAYER_CACHE_ROWS, hidden) == LAYER_CACHE_ROWS * hidden + hidden;
    }
  }

  /** The length check of `qwen3_transformer_forward` as written: only the position limit. */
  predicate ForwardGuardAsWritten(config: TransformerConfig, seqLen: nat)
  {
    seqLen <= config.maxPositionEmbeddings
  }

  /**
   * Under any position limit above 32 (a model's context length, say 2048)
   * the check as written accepts a 33-token sequence, whose embedding rows
   * run past the 32-row buffer.
   */
  lemma ForwardGuardOverruns(config: TransformerConfig)
    requires config.maxPositionEmbeddings > LAYER_CACHE_ROWS && config.hiddenSize > 0
    ensures ForwardGuardAsWritten(config, LAYER_CACHE_ROWS + 1)
    ensures !EmbeddingRowsFit(LAYER_CACHE_ROWS + 1, config.hiddenSize)
  {
    EmbeddingRowsFitIff(LAYER_CACHE_ROWS + 1, config.hiddenSize);
  }

  /** The length check the buffers call for: the position limit and the 32 rows they are sized for. */
  predicate ForwardGuard(config: TransformerConfig, seqLen: nat)
  {
    seqLen <= config.maxPositionEmbeddings && seqLen <= LAYER_CACHE_ROWS
  }

  /** Every sequence the corrected check accepts fits the buffers, and it accepts all those the check as written does that fit. */
  lemma ForwardGuardFits(config: TransformerConfig, seqLen: nat)
    requires config.hiddenSize > 0
    ensures ForwardGuard(config, seqLen) <==>
      ForwardGuardAsWritten(config, seqLen) && EmbeddingRowsFit(seqLen, config.hiddenSize)
  {
    EmbeddingRowsFitIff(seqLen, config.hiddenSize);
  }

  /**
   * `caches` are live layer caches of 32 rows of the given shape, owning
   * disjoint parts of `objs`.
   */
  ghost predicate Owned(caches: seq<Attention.KVCache>, objs: set<object>, numKvHeads: nat, headDim: nat)
    reads objs
  {
    (forall i :: 0 <= i < |caches| ==>
      caches[i] in objs && caches[i].Repr <= objs && caches[i].Live() &&
      caches[i].maxSeqLen == LAYER_CACHE_ROWS && caches[i].numKvHeads == numKvHeads && caches[i].headDim == headDim) &&
    (forall i, j :: 0 <= i < j < |caches| ==> caches[i].Repr !! caches[j].Repr)
  }

  /** A fresh live cache, disjoint from what is already owned, extends the owned layers. */
  lemma OwnedExtend(caches: seq<Attention.KVCache>, objs: set<object>, c: Attention.KVCache, numKvHeads: nat, headDim: nat)
    requires Owned(caches, objs, numKvHeads, headDim)
    requires c.Live() && c.Repr !! objs
    requires c.maxSeqLen == LAYER_CACHE_ROWS && c.numKvHeads == numKvHeads && c.headDim == headDim
    ensures Owned(caches + [c], objs + c.Repr, numKvHeads, headDim)
  {
    var next := caches + [c];
    forall i, j | 0 <= i < j < |next| ensures next[i].Repr !! next[j].Repr {
      if j == |caches| {
        assert next[i].Repr <= objs;
      }
    }
  }

  /**
   * `qwen3_transformer_layer_init`'s cache: 32 rows shaped by the
   * configuration, refused for a zero key/value head count or head size.
   * The layer's float work buffers are not part of this model.
   */
  method LayerInit(numKvHeads: nat, headDim: nat) returns (r: int, cache: Attention.KVCache)
    ensures r == 0 || r == -1
    ensures r == -1 <==> numKvHeads == 0 || headDim == 0
    ensures fresh(cache.Repr)
    ensures r == 0 ==> (cache.Live() && cache.cacheSize == 0 && cache.maxSeqLen == LAYER_CACHE_ROWS &&
      cache.numKvHeads == numKvHeads && cache.headDim == headDim)
  {
    cache := new Attention.KVCache();
    r := cache.Init(LAYER_CACHE_ROWS, numKvHeads, headDim);
  }

  /** `Qwen3Transformer`, reduced to its configuration and the key/value cache of each layer. */
  class Transformer {
    var config: TransformerConfig
    var numLayers: nat
    /** The layers' caches; empty while no layers are allocated. */
    var layers: seq<Attention.KVCache>
    ghost var Repr: set<object>

    ghost predicate Valid()
      reads this, Repr
    {
      this in Repr && Owned(layers, Repr - {this}, config.numKeyValueHeads, config.headDim)
    }

    /** Initialised: every layer is allocated, and all caches hold the same number of rows. */
    ghost predicate Ready()
      reads this, Repr
    {
      Valid() && |layers| == numLayers > 0 &&
      forall i :: 0 <= i < |layers| ==> layers[i].cacheSize == layers[0].cacheSize
    }

    /** The rows every layer's cache holds. */
    ghost function Rows(): nat
      requires Ready()
      reads this, Repr
    {
      layers[0].cacheSize
    }

    /** The state after `memset`: no layers. */
    constructor ()
      ensures Valid() && fresh(Repr) && layers == [] && numLayers == 0
    {
      config := TransformerConfig(0, 0, 0, 0, 0, 0, F32_ZERO, F32_ZERO, false, 0);
      numLayers := 0;
      layers := [];
      Repr := {this};
    }

    /**
     * `qwen3_transformer_init`: zero layers are refused before anything is
     * written. Otherwise the configuration and layer count are copied and
     * each layer gets an empty cache of 32 rows shaped by the
     * configuration; a cache that cannot be created (a zero key/value head
     * count or head size) releases the layers again.
     */
    method Init(config: TransformerConfig, numLayers: nat) returns (r: int)
      requires Valid()
      modifies this
      ensures Valid() && fresh(Repr - old(Repr))
      ensures r == 0 || r == -1
      ensures r == -1 <==> numLayers == 0 || config.numKeyValueHeads == 0 || config.headDim == 0
      ensures numLayers == 0 ==> unchanged(this)
      ensures numLayers > 0 ==> this.config == config && this.numLayers == numLayers
      ensures r == -1 && numLayers > 0 ==> layers == []
      ensures r == 0 ==> Ready() && Rows() == 0
    {
      if numLayers == 0 {
        return -1;
      }
      this.config := config;
      this.numLayers := numLayers;
      var caches;
      ghost var owned;
      r, caches, owned := InitLayers(config.numKeyValueHeads, config.headDim, numLayers);
      layers := caches;
      Repr := Repr + owned;
    }

    /**
     * The allocation loop of `qwen3_transformer_init`: one empty cache per
     * layer, stopping at the first that cannot be created, in which case no
     * layers are kept.
     */
    static method InitLayers(numKvHeads: nat, headDim: nat, numLayers: nat)
      returns (r: int, caches: seq<Attention.KVCache>, ghost owned: set<object>)
      requires numLayers > 0
      ensures fresh(owned) && Owned(caches, owned, numKvHeads, headDim)
      ensures r == 0 || r == -1
      ensures r == -1 <==> numKvHeads == 0 || headDim == 0
      ensures r == -1 ==> caches == []
      ensures r == 0 ==> |caches| == numLayers && forall j :: 0 <= j < numLayers ==> caches[j].cacheSize == 0
    {
      caches, owned := [], {};
      for i := 0 to numLayers
        invariant fresh(owned) && Owned(caches, owned, numKvHeads, headDim)
        invariant |caches| == i
        invariant forall j :: 0 <= j < i ==> caches[j].cacheSize == 0
        invariant i > 0 ==> numKvHeads > 0 && headDim > 0
      {
        var ret, cache := LayerInit(numKvHeads, headDim);
        if ret != 0 {
          return ret, [], {};
        }
        OwnedExtend(caches, owned, cache, numKvHeads, headDim);
        caches := caches + [cache];
        owned := owned + cache.Repr;
      }
      r := 0;
    }

    /** `qwen3_transformer_free`: the layers are released. */
    method Free()
      requires Valid()
      modifies this
      ensures Valid() && Repr == old(Repr) && layers == []
      ensures config == old(config) && numLayers == old(numLayers)
    {
      layers := [];
    }

    /**
     * `qwen3_transformer_layer_forward`'s effect on the layer's cache: one
     * call of multi-head attention with the hard-coded 12-head shape,
     * which appends a single row whatever the sequence length. The
     * sequence fits the layer's 32-row buffers, and unless the cache is
     * full it has more rows than the cache, since attention then reads as
     * many query rows as the cache holds.
     */
    static method LayerForward(cache: Attention.KVCache, seqLen: nat) returns (r: int)
      requires cache.Live() && 0 < seqLen <= LAYER_CACHE_ROWS
      requires cache.cacheSize < cache.maxSeqLen ==> cache.cacheSize < seqLen
      requires cache.numKvHeads == LAYER_HEADS && cache.headDim == LAYER_HIDDEN_SIZE / LAYER_HEADS
      modifies cache, cache.kCache, cache.vCache
      ensures cache.Live() && cache.Repr == old(cache.Repr)
      ensures cache.maxSeqLen == old(cache.maxSeqLen)
      ensures cache.numKvHeads == old(cache.numKvHeads) && cache.headDim == old(cache.headDim)
      ensures cache.kCache == old(cache.kCache) && cache.vCache == old(cache.vCache)
      ensures r == 0 || r == -1
      ensures r == -1 <==> old(cache.cacheSize) >= cache.maxSeqLen
      ensures r == -1 ==> cache.cacheSize == old(cache.cacheSize)
      ensures r == 0 ==> cache.cacheSize == old(cache.cacheSize) + 1
    {
      var k := new f32[seqLen * LAYER_HIDDEN_SIZE](_ => F32_ZERO);
      var v := new f32[seqLen * LAYER_HIDDEN_SIZE](_ => F32_ZERO);
      var attention := Attention.AttentionConfig(seqLen, LAYER_HIDDEN_SIZE / LAYER_HEADS, LAYER_HEADS, LAYER_HEADS,
                                                 F32_ZERO, true, false, 0);
      var fullK, fullV, attended;
      r, fullK, fullV, attended := Attention.Mha(cache, k, v, attention);
    }

    /**
     * `qwen3_transformer_forward`'s bookkeeping: a sequence longer than
     * the position limit, or than the 32 rows the buffers hold, is refused;
     * otherwise each layer in turn appends one row, and the first failure
     * is returned. All layers hold the same number of rows, so either every
     * cache has room or the first layer fails and nothing changes: after 32
     * successful calls every call fails.
     */
    method Forward(seqLen: nat) returns (r: int)
      requires Ready()
      requires config.numKeyValueHeads == LAYER_HEADS && config.headDim == LAYER_HIDDEN_SIZE / LAYER_HEADS
      requires ForwardGuard(config, seqLen) ==> seqLen > 0 && (Rows() < LAYER_CACHE_ROWS ==> Rows() < seqLen)
      modifies Repr
      ensures Ready() && Repr == old(Repr)
      ensures config == old(config) && numLayers == old(numLayers) && layers == old(layers)
      ensures r == 0 || r == -1
      ensures r == -1 <==> !ForwardGuard(config, seqLen) || old(Rows()) >= LAYER_CACHE_ROWS
      ensures r == -1 ==> Rows() == old(Rows())
      ensures r == 0 ==> Rows() == old(Rows()) + 1
      ensures Rows() <= LAYER_CACHE_ROWS
    {
      if !ForwardGuard(config, seqLen) {
        return -1;
      }
      ghost var start := layers[0].cacheSize;
      for l := 0 to |layers|
        invariant Valid() && Repr == old(Repr) && layers == old(layers) && config == old(config) && numLayers == old(numLayers)
        invariant l > 0 ==> start < LAYER_CACHE_ROWS
        invariant forall i :: 0 <= i < l ==> layers[i].cacheSize == start + 1
        invariant forall i :: l <= i < |layers| ==> layers[i].cacheSize == start
      {
        var ret := ForwardLayer(l, seqLen);
        if ret != 0 {
          return ret;
        }
      }
      r := 0;
    }

    /** One layer's forward pass inside the transformer: only that layer's cache changes. */
    method ForwardLayer(l: nat, seqLen: nat) returns (r: int)
      requires Valid() && l < |layers| && 0 < seqLen <= LAYER_CACHE_ROWS
      requires layers[l].cacheSize < LAYER_CACHE_ROWS ==> layers[l].cacheSize < seqLen
      requires config.numKeyValueHeads == LAYER_HEADS && config.headDim == LAYER_HIDDEN_SIZE / LAYER_HEADS
      modifies Repr
      ensures Valid() && Repr == old(Repr)
      ensures config == old(config) && numLayers == old(numLayers) && layers == old(layers)
      ensures forall i :: 0 <= i < |layers| && i != l ==> layers[i].cacheSize == old(layers[i].cacheSize)
      ensures r == 0 || r == -1
      ensures r == -1 <==> old(layers[l].cacheSize) >= LAYER_CACHE_ROWS
      ensures r == -1 ==> layers[l].cacheSize == old(layers[l].cacheSize)
      ensures r == 0 ==> layers[l].cacheSize == old(layers[l].cacheSize) + 1
    {
      r := LayerForward(layers[l], seqLen);
    }
  }
}
