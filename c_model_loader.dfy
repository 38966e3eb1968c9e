/**
 * The C engine's checkpoint loader: a 40-byte configuration read word by
 * word from a stdio stream, range validation, an optional context-length
 * override, three skipped blocks of normalisation weights, seven quantized
 * tensors per layer and the token-embedding table.
 *
 * All size arithmetic the loader does in `uint32_t` is reduced modulo 2^32
 * exactly where the C code does it; `fread` of host-order words is read as
 * little-endian.
 */
module CModelLoader {
  import opened Wrappers
  import opened Bytes
  import opened Arithmetic

  const QWEN3_MAGIC: u32 := 0x5157454E
  const QWEN3_VERSION: u32 := 1
  const MAX_MODEL_SIZE: nat := 10 * 1024 * 1024 * 1024
  const CONFIG_BYTES: nat := 40
  const GROUP_SIZE: nat := 64

  datatype CModelConfig = CModelConfig(
    vocabSize: u32,
    dim: u32,
    hiddenDim: u32,
    nLayers: u32,
    nHeads: u32,
    nKvHeads: u32,
    maxSeqLen: u32,
    ropeTheta: f32)

  datatype LoadError =
    | NullPath
    | OpenFailed
    | InvalidFileSize
    | ReadFailed
    | BadMagic(magic: u32)
    | BadVersion(version: u32)
    | InvalidField(field: string, value: u32)
    | WeightReadFailed

  datatype LoadedModel = LoadedModel(config: CModelConfig, headDim: u32, groupSize: nat)

  /** An open stdio stream over fixed file contents. */
  class CFile {
    const data: seq<byte>
    var pos: nat

    constructor (contents: seq<byte>)
      ensures data == contents && pos == 0
    {
      data := contents;
      pos := 0;
    }

    /** `fread` of one 32-bit word; a short read leaves the stream at end of file. */
    method ReadU32() returns (r: Option<u32>)
      modifies this
      ensures old(pos) + 4 <= |data| ==> r == Some(U32At(data, old(pos))) && pos == old(pos) + 4
      ensures old(pos) + 4 > |data| ==> r == None && pos == Max(old(pos), |data|)
    {
      if pos + 4 <= |data| {
        r := Some(U32At(data, pos));
        pos := pos + 4;
      } else {
        r := None;
        pos := Max(pos, |data|);
      }
    }

    /**
     * `fread` of `n` bytes whose values the model does not track. A read of
     * zero bytes succeeds wherever the stream stands.
     */
    method Read(n: nat) returns (ok: bool)
      modifies this
      ensures ok == (n == 0 || old(pos) + n <= |data|)
      ensures pos == if ok then old(pos) + n else Max(old(pos), |data|)
    {
      ok := n == 0 || pos + n <= |data|;
      pos := if ok then pos + n else Max(pos, |data|);
    }

    /** `fseek(file, n, SEEK_CUR)`: moving past the end of a regular file succeeds. */
    method SeekForward(n: nat)
      modifies this
      ensures pos == old(pos) + n
    {
      pos := pos + n;
    }
  }

  function Max(a: nat, b: nat): nat { if a < b then b else a }

  // ---------------------------------------------------------------------
  // Configuration

  /** The seven range checks, in order; the first failing field is reported. */
  function ValidateModelConfig(c: CModelConfig): (r: Result<(), LoadError>)
    ensures r.Ok? <==> ConfigInRange(c)
    ensures r.Err? ==> r.error.InvalidField?
    ensures !(0 < c.vocabSize <= 1000000) ==> r == Err(InvalidField("vocab_size", c.vocabSize))
  {
    if c.vocabSize == 0 || c.vocabSize > 1000000 then Err(InvalidField("vocab_size", c.vocabSize))
    else if c.dim == 0 || c.dim > 16384 then Err(InvalidField("dim", c.dim))
    else if c.hiddenDim == 0 || c.hiddenDim > 65536 then Err(InvalidField("hidden_dim", c.hiddenDim))
    else if c.nLayers == 0 || c.nLayers > 100 then Err(InvalidField("n_layers", c.nLayers))
    else if c.nHeads == 0 || c.nHeads > 128 then Err(InvalidField("n_heads", c.nHeads))
    else if c.nKvHeads == 0 || c.nKvHeads > c.nHeads then Err(InvalidField("n_kv_heads", c.nKvHeads))
    else if c.maxSeqLen == 0 || c.maxSeqLen > 65536 then Err(InvalidField("max_seq_len", c.maxSeqLen))
    else Ok(())
  }

  /** The accepted configurations, stated as one conjunction of ranges. */
  predicate ConfigInRange(c: CModelConfig)
  {
    1 <= c.vocabSize <= 1000000 && 1 <= c.dim <= 16384 && 1 <= c.hiddenDim <= 65536
    && 1 <= c.nLayers <= 100 && 1 <= c.nHeads <= 128 && 1 <= c.nKvHeads <= c.nHeads
    && 1 <= c.maxSeqLen <= 65536
  }

  function ConfigAt(data: seq<byte>, p: nat): CModelConfig
    requires p + CONFIG_BYTES <= |data|
  {
    CModelConfig(U32At(data, p + 8), U32At(data, p + 12), U32At(data, p + 16), U32At(data, p + 20),
                 U32At(data, p + 24), U32At(data, p + 28), U32At(data, p + 32), U32At(data, p + 36))
  }

  /** What reading and validating the configuration at stream position `p` yields. */
  function ConfigSpec(data: seq<byte>, p: nat): Result<CModelConfig, LoadError>
  {
    if p + 4 > |data| then Err(ReadFailed)
    else if U32At(data, p) != QWEN3_MAGIC then Err(BadMagic(U32At(data, p)))
    else if p + 8 > |data| then Err(ReadFailed)
    else if U32At(data, p + 4) != QWEN3_VERSION then Err(BadVersion(U32At(data, p + 4)))
    else if p + CONFIG_BYTES > |data| then Err(ReadFailed)
    else match ValidateModelConfig(ConfigAt(data, p))
      case Err(e) => Err(e)
      case Ok(_) => Ok(ConfigAt(data, p))
  }

  /** Reads magic, version, seven dimensions and rope_theta, then validates the ranges. */
  method LoadModelConfig(file: CFile) returns (r: Result<CModelConfig, LoadError>)
    modifies file
    ensures r == ConfigSpec(file.data, old(file.pos))
    ensures r.Ok? ==> file.pos == old(file.pos) + CONFIG_BYTES
  {
    ghost var p := file.pos;
    var magic := file.ReadU32();
    if magic.None? { return Err(ReadFailed); }
    if magic.value != QWEN3_MAGIC { return Err(BadMagic(magic.value)); }
    var version := file.ReadU32();
    if version.None? { return Err(ReadFailed); }
    if version.value != QWEN3_VERSION { return Err(BadVersion(version.value)); }
    var vocabSize := file.ReadU32();
    if vocabSize.None? { return Err(ReadFailed); }
    var dim := file.ReadU32();
    if dim.None? { return Err(ReadFailed); }
    var hiddenDim := file.ReadU32();
    if hiddenDim.None? { return Err(ReadFailed); }
    var nLayers := file.ReadU32();
    if nLayers.None? { return Err(ReadFailed); }
    var nHeads := file.ReadU32();
    if nHeads.None? { return Err(ReadFailed); }
    var nKvHeads := file.ReadU32();
    if nKvHeads.None? { return Err(ReadFailed); }
    var maxSeqLen := file.ReadU32();
    if maxSeqLen.None? { return Err(ReadFailed); }
    var ropeTheta := file.ReadU32();
    if ropeTheta.None? { return Err(ReadFailed); }
    var config := CModelConfig(vocabSize.value, dim.value, hiddenDim.value, nLayers.value,
                               nHeads.value, nKvHeads.value, maxSeqLen.value, ropeTheta.value);
    assert config == ConfigAt(file.data, p);
    var valid := ValidateModelConfig(config);
    if valid.Err? { return Err(valid.error); }
    r := Ok(config);
  }

  // ---------------------------------------------------------------------
  // Weight layout

  /** Bytes one quantized tensor occupies: int8 values, then one f32 scale per group of 64. */
  function TensorBytes(numElements: u32): nat
  {
    numElements + 4 * (WrapU32(numElements + GROUP_SIZE - 1) / GROUP_SIZE)
  }

  function HeadDim(c: CModelConfig): u32
    requires c.nHeads > 0
  {
    c.dim / c.nHeads
  }

  /** Element counts of the seven per-layer tensors, computed in `uint32_t` as the loader does. */
  function LayerTensorElements(c: CModelConfig): (r: seq<u32>)
    requires c.nHeads > 0
    ensures |r| == 7
  {
    var square := WrapU32(c.dim * c.dim);
    var kv := WrapU32(c.dim * WrapU32(c.nKvHeads * HeadDim(c)));
    var ffn := WrapU32(c.hiddenDim * c.dim);
    [square, kv, kv, square, ffn, WrapU32(c.dim * c.hiddenDim), ffn]
  }

  function SumTensorBytes(counts: seq<u32>): nat
  {
    if counts == [] then 0 else TensorBytes(counts[0]) + SumTensorBytes(counts[1..])
  }

  function LayerBytes(c: CModelConfig): nat
    requires c.nHeads > 0
  {
    SumTensorBytes(LayerTensorElements(c))
  }

  /** The three skipped blocks: attention and FFN norms, q/k norms, final norm. */
  function NormBytes(c: CModelConfig): nat
    requires c.nHeads > 0
  {
    2 * (WrapU32(c.nLayers * c.dim) * 4)
    + WrapU32(WrapU32(c.nLayers * 2) * HeadDim(c)) * 4
    + c.dim * 4
  }

  /** Element count of the token-embedding table as the loader computes it (32-bit product). */
  function EmbeddingElements(c: CModelConfig): u32
  {
    WrapU32(c.vocabSize * c.dim)
  }

  /** Where the stream stands once every tensor of a configuration has been read. */
  function WeightsEnd(c: CModelConfig): nat
    requires c.nHeads > 0
  {
    var layers := LayerBytes(c);
    MulLe(0, 0, c.nLayers, layers);
    CONFIG_BYTES + NormBytes(c) + c.nLayers * layers + TensorBytes(EmbeddingElements(c))
  }

  /** `load_quantized_tensor`: the int8 values, then the group scales. */
  method LoadQuantizedTensor(file: CFile, numElements: u32) returns (ok: bool)
    modifies file
    ensures ok == (TensorBytes(numElements) == 0 || old(file.pos) + TensorBytes(numElements) <= |file.data|)
    ensures ok ==> file.pos == old(file.pos) + TensorBytes(numElements)
    ensures !ok ==> file.pos >= |file.data|
  {
    var numGroups := WrapU32(numElements + GROUP_SIZE - 1) / GROUP_SIZE;
    ok := file.Read(numElements);
    if !ok { return; }
    ok := file.Read(numGroups * 4);
  }

  lemma FirstTensorNonEmpty(c: CModelConfig)
    requires ConfigInRange(c)
    ensures TensorBytes(LayerTensorElements(c)[0]) > 0
  {
    MulLe(c.dim, c.dim, 16384, 16384);
  }

  /** The seven tensors of one layer, in file order wq, wk, wv, wo, w1, w2, w3. */
  method LoadLayer(file: CFile, c: CModelConfig) returns (ok: bool)
    requires ConfigInRange(c)
    modifies file
    ensures ok == (old(file.pos) + LayerBytes(c) <= |file.data|)
    ensures ok ==> file.pos == old(file.pos) + LayerBytes(c)
  {
    var counts := LayerTensorElements(c);
    FirstTensorNonEmpty(c);
    ghost var start := file.pos;
    var t := 0;
    while t < 7
      invariant 0 <= t <= 7
      invariant file.pos + SumTensorBytes(counts[t..]) == start + LayerBytes(c)
      invariant t > 0 ==> file.pos <= |file.data|
      invariant t == 0 ==> file.pos == start
    {
      assert counts[t..] == [counts[t]] + counts[t + 1..];
      var loaded := LoadQuantizedTensor(file, counts[t]);
      if !loaded {
        return false;
      }
      t := t + 1;
    }
    ok := true;
  }

  /** Every layer in turn; layer `i` starts `i * LayerBytes(c)` bytes after the first. */
  method LoadLayers(file: CFile, c: CModelConfig) returns (ok: bool)
    requires ConfigInRange(c)
    modifies file
    ensures ok == (old(file.pos) + c.nLayers * LayerBytes(c) <= |file.data|)
    ensures ok ==> file.pos == old(file.pos) + c.nLayers * LayerBytes(c) <= |file.data|
  {
    ghost var start := file.pos;
    var lb := LayerBytes(c);
    var i: nat := 0;
    while i < c.nLayers
      invariant i <= c.nLayers
      invariant file.pos == start + i * lb
      invariant i > 0 ==> file.pos <= |file.data|
    {
      MulSucc(i, lb);
      var loaded := LoadLayer(file, c);
      if !loaded {
        MulLe(i + 1, lb, c.nLayers, lb);
        return false;
      }
      i := i + 1;
    }
    ok := true;
  }

  /**
   * `qwen3_model_load_internal`. The file system maps paths to contents; a
   * path outside it cannot be opened.
   */
  method LoadModel(path: Option<string>, files: map<string, seq<byte>>, ctxLength: u32)
    returns (r: Result<LoadedModel, LoadError>)
    ensures r == LoadSpec(path, files, ctxLength)
  {
    if path.None? {
      return Err(NullPath);
    }
    if path.value !in files {
      return Err(OpenFailed);
    }
    var file := new CFile(files[path.value]);
    var fileSize := |file.data|;
    if fileSize > MAX_MODEL_SIZE {
      return Err(InvalidFileSize);
    }
    var loaded := LoadModelConfig(file);
    if loaded.Err? {
      return Err(loaded.error);
    }
    var config := loaded.value;
    if ctxLength > 0 && ctxLength <= config.maxSeqLen {
      config := config.(maxSeqLen := ctxLength);
    }
    var headDim := config.dim / config.nHeads;
    assert config.(maxSeqLen := loaded.value.maxSeqLen) == loaded.value;
    SameLayout(config, loaded.value);

    file.SeekForward(WrapU32(config.nLayers * config.dim) * 4 * 2);
    file.SeekForward(WrapU32(WrapU32(config.nLayers * 2) * headDim) * 4);
    file.SeekForward(config.dim * 4);
    assert file.pos == CONFIG_BYTES + NormBytes(config);

    var layersOk := LoadLayers(file, config);
    if !layersOk {
      return Err(WeightReadFailed);
    }
    var embeddingOk := LoadQuantizedTensor(file, WrapU32(config.vocabSize * config.dim));
    if !embeddingOk {
      return Err(WeightReadFailed);
    }
    r := Ok(LoadedModel(config, headDim, GROUP_SIZE));
  }

  /** The weight layout does not depend on the context length. */
  lemma SameLayout(a: CModelConfig, b: CModelConfig)
    requires a.(maxSeqLen := b.maxSeqLen) == b && a.nHeads > 0
    ensures HeadDim(a) == HeadDim(b) && NormBytes(a) == NormBytes(b)
    ensures LayerBytes(a) == LayerBytes(b) && WeightsEnd(a) == WeightsEnd(b)
    ensures ConfigInRange(a) <== ConfigInRange(b) && 0 < a.maxSeqLen <= b.maxSeqLen
  {
  }

  /** The configuration after the context-length override. */
  function WithContext(c: CModelConfig, ctxLength: u32): (r: CModelConfig)
    ensures r.maxSeqLen == (if 0 < ctxLength <= c.maxSeqLen then ctxLength else c.maxSeqLen)
    ensures r.(maxSeqLen := c.maxSeqLen) == c
  {
    if 0 < ctxLength <= c.maxSeqLen then c.(maxSeqLen := ctxLength) else c
  }

  function LoadSpec(path: Option<string>, files: map<string, seq<byte>>, ctxLength: u32)
    : Result<LoadedModel, LoadError>
  {
    if path.None? then Err(NullPath)
    else if path.value !in files then Err(OpenFailed)
    else
      var data := files[path.value];
      if |data| > MAX_MODEL_SIZE then Err(InvalidFileSize)
      else match ConfigSpec(data, 0)
        case Err(e) => Err(e)
        case Ok(c) =>
          if WeightsEnd(c) > |data| then Err(WeightReadFailed)
          else Ok(LoadedModel(WithContext(c, ctxLength), HeadDim(c), GROUP_SIZE))
  }

  // ---------------------------------------------------------------------
  // Properties of the loader

  /**
   * A model loads exactly when the file exists, is at most 10 GiB, starts with
   * the magic and version, carries an in-range configuration, and holds every
   * tensor that configuration calls for.
   */
  lemma LoadSucceedsIff(path: Option<string>, files: map<string, seq<byte>>, ctxLength: u32)
    ensures LoadSpec(path, files, ctxLength).Ok? <==>
      path.Some? && path.value in files
      && var data := files[path.value];
         |data| <= MAX_MODEL_SIZE && CONFIG_BYTES <= |data|
         && U32At(data, 0) == QWEN3_MAGIC && U32At(data, 4) == QWEN3_VERSION
         && ConfigInRange(ConfigAt(data, 0))
         && WeightsEnd(ConfigAt(data, 0)) <= |data|
  {
  }

  /** A loaded model satisfies every range the validator checks, and the override never raises the context. */
  lemma LoadedModelInRange(path: Option<string>, files: map<string, seq<byte>>, ctxLength: u32)
    requires LoadSpec(path, files, ctxLength).Ok?
    ensures var m := LoadSpec(path, files, ctxLength).value;
            ConfigInRange(m.config) && m.config.maxSeqLen <= ConfigAt(files[path.value], 0).maxSeqLen
            && m.headDim * m.config.nHeads <= m.config.dim
  {
    var c := ConfigAt(files[path.value], 0);
    var m := LoadSpec(path, files, ctxLength).value;
    SameLayout(m.config, c);
    HeadDimBound(c);
  }

  /** For in-range configurations every per-layer count and skip size is computed without wrap-around. */
  lemma {:induction false} LayerCountsExact(c: CModelConfig)
    requires ConfigInRange(c)
    ensures LayerTensorElements(c) ==
      [c.dim * c.dim, c.dim * (c.nKvHeads * HeadDim(c)), c.dim * (c.nKvHeads * HeadDim(c)),
       c.dim * c.dim, c.hiddenDim * c.dim, c.dim * c.hiddenDim, c.hiddenDim * c.dim]
    ensures NormBytes(c) == 2 * c.nLayers * c.dim * 4 + c.nLayers * 2 * HeadDim(c) * 4 + c.dim * 4
  {
    var hd := HeadDim(c);
    HeadDimBound(c);
    TensorProductsFit(c.dim, c.nKvHeads, hd, c.nHeads, c.hiddenDim);
    NormProductsFit(c.nLayers, c.dim, hd);
  }

  lemma TensorProductsFit(dim: nat, kvHeads: nat, hd: nat, heads: nat, hidden: nat)
    requires dim <= 16384 && hidden <= 65536 && kvHeads <= heads && hd * heads <= dim
    ensures WrapU32(dim * dim) == dim * dim && WrapU32(hidden * dim) == hidden * dim
    ensures WrapU32(dim * hidden) == dim * hidden
    ensures WrapU32(kvHeads * hd) == kvHeads * hd && WrapU32(dim * (kvHeads * hd)) == dim * (kvHeads * hd)
  {
    MulLe(kvHeads, hd, heads, hd);
    MulLe(dim, dim, 16384, 16384);
    MulLe(dim, kvHeads * hd, 16384, 16384);
    MulLe(hidden, dim, 65536, 16384);
  }

  lemma NormProductsFit(layers: nat, dim: nat, hd: nat)
    requires layers <= 100 && dim <= 16384 && hd <= dim
    ensures WrapU32(layers * dim) == layers * dim && WrapU32(layers * 2) == layers * 2
    ensures WrapU32(layers * 2 * hd) == layers * 2 * hd
    ensures 2 * (layers * dim * 4) == 2 * layers * dim * 4
  {
    MulLe(layers, dim, 100, 16384);
    MulLe(layers * 2, hd, 200, 16384);
  }

  lemma HeadDimBound(c: CModelConfig)
    requires c.nHeads > 0
    ensures HeadDim(c) * c.nHeads <= c.dim && HeadDim(c) <= c.dim
  {
    var hd := HeadDim(c);
    DivBounds(c.dim, c.nHeads);
    MulMonotone(1, c.nHeads, hd);
  }

  /**
   * The discrepancy: vocab_size = 262144 and dim = 16384 pass validation, but
   * their 32-bit product is 0, so the loader reads an empty embedding table.
   */
  lemma EmbeddingCountWraps()
    ensures var c := CModelConfig(262144, 16384, 1, 1, 1, 1, 1, F32_10000);
            ConfigInRange(c) && EmbeddingElements(c) == 0 && TensorBytes(EmbeddingElements(c)) == 0
            && c.vocabSize * c.dim == U32_LIMIT
  {
  }

  /** The embedding table as evidently intended: the element count in 64-bit arithmetic. */
  function EmbeddingBytesIntended(c: CModelConfig): (r: nat)
    ensures r >= c.vocabSize * c.dim
    ensures c.vocabSize * c.dim < U32_LIMIT - GROUP_SIZE ==> r == TensorBytes(EmbeddingElements(c))
  {
    var n := c.vocabSize * c.dim;
    n + 4 * ((n + GROUP_SIZE - 1) / GROUP_SIZE)
  }

  /** With the intended count, every in-range configuration reads at least one int8 per vocabulary entry and dimension. */
  lemma EmbeddingIntendedCoversTable(c: CModelConfig)
    requires ConfigInRange(c)
    ensures EmbeddingBytesIntended(c) >= c.vocabSize * c.dim > 0
  {
  }
}
