/**
 * The Rust engine's checkpoint header reader (qwen3-inference configuration):
 * a configuration block is taken from a memory-mapped file, decoded field by
 * field through a cursor, checked, and the mapper is moved past the 256-byte
 * header.
 */
module CheckpointHeader {
  import opened Wrappers
  import opened Bytes

  const CHECKPOINT_MAGIC: int := 0x5157454E
  const CHECKPOINT_VERSION: int := 1
  const HEADER_SIZE: nat := 256
  const CONFIG_SIZE: nat := 36
  const OLD_CONFIG_SIZE: nat := 32
  const DEFAULT_GROUP_SIZE: nat := 64

  /** The decoded configuration handed to the engine. */
  datatype ModelConfig = ModelConfig(
    dim: nat,
    hiddenDim: nat,
    nLayers: nat,
    nHeads: nat,
    nKvHeads: nat,
    headDim: nat,
    seqLen: nat,
    vocabSize: nat,
    groupSize: nat,
    sharedClassifier: bool,
    ropeTheta: f32)

  /** The header fields as signed 32-bit values, before validation. */
  datatype RawConfig = RawConfig(
    magic: int,
    version: int,
    vocabSize: int,
    dim: int,
    hiddenDim: int,
    nLayers: int,
    nHeads: int,
    nKvHeads: int,
    seqLen: int,
    ropeTheta: f32)

  predicate IsI32(x: int) { -0x8000_0000 <= x < 0x8000_0000 }

  predicate RawInRange(c: RawConfig)
  {
    IsI32(c.magic) && IsI32(c.version) && IsI32(c.vocabSize) && IsI32(c.dim)
    && IsI32(c.hiddenDim) && IsI32(c.nLayers) && IsI32(c.nHeads) && IsI32(c.nKvHeads)
    && IsI32(c.seqLen)
  }

  datatype HeaderError =
    | ConfigBlockUnavailable
    | FieldTruncated
    | BadMagic(actual: int)
    | BadVersion(actual: int)
    | NonPositive(field: string, value: int)
    | SkipFailed

  /** The memory-mapped checkpoint: its bytes and the read position. */
  class MemoryMapper {
    var data: seq<byte>
    var position: nat

    predicate Valid()
      reads this
    {
      position <= |data|
    }

    constructor (contents: seq<byte>)
      ensures Valid() && data == contents && position == 0
    {
      data := contents;
      position := 0;
    }

    /** Hands out the next `n` bytes and moves past them; fails, without moving, when fewer remain. */
    method GetBytes(n: nat) returns (r: Option<seq<byte>>)
      requires Valid()
      modifies this`position
      ensures Valid()
      ensures old(position) + n <= |data| ==>
                r == Some(data[old(position)..old(position) + n]) && position == old(position) + n
      ensures old(position) + n > |data| ==> r == None && position == old(position)
    {
      if position + n <= |data| {
        r := Some(data[position..position + n]);
        position := position + n;
      } else {
        r := None;
      }
    }

    /** Moves `n` bytes forward; fails, without moving, past the end of the data. */
    method Skip(n: nat) returns (ok: bool)
      requires Valid()
      modifies this`position
      ensures Valid()
      ensures ok == (old(position) + n <= |data|)
      ensures position == if ok then old(position) + n else old(position)
    {
      ok := position + n <= |data|;
      if ok {
        position := position + n;
      }
    }
  }

  /** The first named value that is not positive, in the order the validator checks them. */
  function FirstNonPositive(fields: seq<(string, int)>): (r: Option<(string, int)>)
    ensures r.None? <==> forall k :: 0 <= k < |fields| ==> fields[k].1 > 0
    ensures r.Some? ==> exists k :: 0 <= k < |fields| && fields[k] == r.value && r.value.1 <= 0
                          && forall j :: 0 <= j < k ==> fields[j].1 > 0
  {
    if fields == [] then None
    else if fields[0].1 <= 0 then Some(fields[0])
    else
      var rest := FirstNonPositive(fields[1..]);
      if rest.Some? then
        ghost var k :| 0 <= k < |fields[1..]| && fields[1..][k] == rest.value && rest.value.1 <= 0
                       && forall j :: 0 <= j < k ==> fields[1..][j].1 > 0;
        assert fields[k + 1] == rest.value;
        rest
      else rest
  }

  function CheckedDimensions(c: RawConfig): seq<(string, int)>
  {
    [("dim", c.dim), ("n_layers", c.nLayers), ("n_heads", c.nHeads),
     ("n_kv_heads", c.nKvHeads), ("vocab_size", c.vocabSize), ("seq_len", c.seqLen)]
  }

  predicate DimensionsPositive(c: RawConfig)
  {
    c.dim > 0 && c.nLayers > 0 && c.nHeads > 0 && c.nKvHeads > 0 && c.vocabSize > 0 && c.seqLen > 0
  }

  /** Magic, then version, then the six dimensions; the first failure is reported. */
  function ValidateConfig(c: RawConfig): (r: Result<(), HeaderError>)
    ensures r.Ok? <==> c.magic == CHECKPOINT_MAGIC && c.version == CHECKPOINT_VERSION && DimensionsPositive(c)
    ensures c.magic != CHECKPOINT_MAGIC ==> r == Err(BadMagic(c.magic))
    ensures c.magic == CHECKPOINT_MAGIC && c.version != CHECKPOINT_VERSION ==> r == Err(BadVersion(c.version))
    ensures r.Err? && r.error.NonPositive? ==> r.error.value <= 0
  {
    if c.magic != CHECKPOINT_MAGIC then Err(BadMagic(c.magic))
    else if c.version != CHECKPOINT_VERSION then Err(BadVersion(c.version))
    else
      var dims := CheckedDimensions(c);
      match FirstNonPositive(dims)
      case Some(p) => Err(NonPositive(p.0, p.1))
      case None =>
        assert dims[0].1 > 0 && dims[1].1 > 0 && dims[2].1 > 0;
        assert dims[3].1 > 0 && dims[4].1 > 0 && dims[5].1 > 0;
        Ok(())
  }

  /** The conversion into the engine's configuration, with derived head size and defaults. */
  function ToModelConfig(c: RawConfig): (r: Result<ModelConfig, HeaderError>)
    requires RawInRange(c)
    ensures r.Ok? <==> ValidateConfig(c).Ok?
    ensures r.Err? ==> r.error == ValidateConfig(c).error
    ensures r.Ok? ==>
      r.value.dim == c.dim && r.value.nLayers == c.nLayers && r.value.nHeads == c.nHeads
      && r.value.nKvHeads == c.nKvHeads && r.value.seqLen == c.seqLen && r.value.vocabSize == c.vocabSize
      && r.value.headDim * r.value.nHeads <= r.value.dim < (r.value.headDim + 1) * r.value.nHeads
      && r.value.hiddenDim == UsizeFromI32(c.hiddenDim)
      && r.value.groupSize == DEFAULT_GROUP_SIZE && r.value.sharedClassifier
      && r.value.ropeTheta == c.ropeTheta
  {
    match ValidateConfig(c)
    case Err(e) => Err(e)
    case Ok(_) =>
      Ok(ModelConfig(
        dim := c.dim,
        hiddenDim := UsizeFromI32(c.hiddenDim),
        nLayers := c.nLayers,
        nHeads := c.nHeads,
        nKvHeads := c.nKvHeads,
        headDim := c.dim / c.nHeads,
        seqLen := c.seqLen,
        vocabSize := c.vocabSize,
        groupSize := DEFAULT_GROUP_SIZE,
        sharedClassifier := true,
        ropeTheta := c.ropeTheta))
  }

  /** The signed field stored as the `k`-th little-endian word of a block. */
  function FieldAt(block: seq<byte>, k: nat): int
    requires 4 * k + 4 <= |block|
  {
    I32FromBits(U32At(block, 4 * k))
  }

  /**
   * What reading the header at `pos` yields. The mapper first offers a
   * 36-byte block and only when that is not available a 32-byte one; in a
   * 32-byte block the seventh dimension cannot be read, and in a 36-byte block
   * no bytes remain for rope_theta, so the default 10000.0 is always used.
   */
  function ReadConfigSpec(data: seq<byte>, pos: nat): Result<ModelConfig, HeaderError>
    requires pos <= |data|
  {
    var remaining := |data| - pos;
    if remaining < OLD_CONFIG_SIZE then Err(ConfigBlockUnavailable)
    else
      var block := data[pos..pos + OLD_CONFIG_SIZE];
      if FieldAt(block, 0) != CHECKPOINT_MAGIC then Err(BadMagic(FieldAt(block, 0)))
      else if FieldAt(block, 1) != CHECKPOINT_VERSION then Err(BadVersion(FieldAt(block, 1)))
      else if remaining < CONFIG_SIZE then Err(FieldTruncated)
      else if remaining < HEADER_SIZE then Err(SkipFailed)
      else ToModelConfig(RawAt(data[pos..pos + CONFIG_SIZE], F32_10000))
  }

  function RawAt(block: seq<byte>, theta: f32): (c: RawConfig)
    requires |block| >= 36
    ensures RawInRange(c)
  {
    RawConfig(FieldAt(block, 0), FieldAt(block, 1), FieldAt(block, 2), FieldAt(block, 3),
              FieldAt(block, 4), FieldAt(block, 5), FieldAt(block, 6), FieldAt(block, 7),
              FieldAt(block, 8), theta)
  }

  /** Where the mapper stands after `ReadConfig`, successful or not. */
  function PositionAfter(data: seq<byte>, pos: nat): nat
    requires pos <= |data|
  {
    var remaining := |data| - pos;
    if remaining < OLD_CONFIG_SIZE then pos
    else if remaining < CONFIG_SIZE then pos + OLD_CONFIG_SIZE
    else if remaining < HEADER_SIZE then pos + CONFIG_SIZE
    else if FieldAt(data[pos..pos + CONFIG_SIZE], 0) != CHECKPOINT_MAGIC
         || FieldAt(data[pos..pos + CONFIG_SIZE], 1) != CHECKPOINT_VERSION then pos + CONFIG_SIZE
    else pos + HEADER_SIZE
  }

  lemma BlockPrefix(data: seq<byte>, pos: nat, k: nat)
    requires pos + CONFIG_SIZE <= |data| && k < 2
    ensures FieldAt(data[pos..pos + CONFIG_SIZE], k) == FieldAt(data[pos..pos + OLD_CONFIG_SIZE], k)
  {
    var long, short := data[pos..pos + CONFIG_SIZE], data[pos..pos + OLD_CONFIG_SIZE];
    assert long[4 * k] == short[4 * k] && long[4 * k + 1] == short[4 * k + 1];
    assert long[4 * k + 2] == short[4 * k + 2] && long[4 * k + 3] == short[4 * k + 3];
  }

  /**
   * Reads the header through a cursor over the configuration block, exactly
   * in the order of the Rust reader: block, magic, version, seven dimensions,
   * optional rope_theta, skip to the end of the header, validation.
   */
  method ReadConfig(mapper: MemoryMapper) returns (r: Result<ModelConfig, HeaderError>)
    requires mapper.Valid()
    modifies mapper`position
    ensures mapper.Valid() && mapper.data == old(mapper.data)
    ensures r == ReadConfigSpec(old(mapper.data), old(mapper.position))
    ensures mapper.position == PositionAfter(old(mapper.data), old(mapper.position))
  {
    ghost var pos0 := mapper.position;
    var block: seq<byte>;
    var got := mapper.GetBytes(CONFIG_SIZE);
    if got.Some? {
      block := got.value;
    } else {
      var fallback := mapper.GetBytes(OLD_CONFIG_SIZE);
      if fallback.None? {
        return Err(ConfigBlockUnavailable);
      }
      block := fallback.value;
    }
    assert |block| >= OLD_CONFIG_SIZE;
    if |block| == CONFIG_SIZE {
      BlockPrefix(mapper.data, pos0, 0);
      BlockPrefix(mapper.data, pos0, 1);
    }

    // the cursor over the block
    var cursor: nat := 0;
    var magic := I32FromBits(U32At(block, cursor));
    cursor := cursor + 4;
    var version := I32FromBits(U32At(block, cursor));
    cursor := cursor + 4;
    if magic != CHECKPOINT_MAGIC {
      return Err(BadMagic(magic));
    }
    if version != CHECKPOINT_VERSION {
      return Err(BadVersion(version));
    }

    var fields: seq<int> := [];
    while |fields| < 7
      invariant cursor == 8 + 4 * |fields| && cursor <= |block|
      invariant forall k :: 0 <= k < |fields| ==> fields[k] == FieldAt(block, k + 2)
    {
      if cursor + 4 > |block| {
        return Err(FieldTruncated);
      }
      fields := fields + [I32FromBits(U32At(block, cursor))];
      cursor := cursor + 4;
    }

    // The block holds at most 36 bytes and the cursor stands at 36 here, so
    // the branch that would read rope_theta from the file is never taken.
    var ropeTheta: f32 := F32_10000;
    if cursor + 4 <= |block| {
      assert false;
    }

    var config := RawConfig(magic, version, fields[0], fields[1], fields[2], fields[3],
                            fields[4], fields[5], fields[6], ropeTheta);
    var skipped := mapper.Skip(HEADER_SIZE - |block|);
    if !skipped {
      return Err(SkipFailed);
    }
    assert config == RawAt(block, F32_10000);
    r := ToModelConfig(config);
  }

  // ---------------------------------------------------------------------
  // Properties of the reader

  /** Successful reads never carry a rope_theta from the file: it is always 10000.0. */
  lemma ReadConfigThetaIsDefault(data: seq<byte>, pos: nat)
    requires pos <= |data|
    ensures ReadConfigSpec(data, pos).Ok? ==> ReadConfigSpec(data, pos).value.ropeTheta == F32_10000
  {
  }

  /** A checkpoint with fewer than 36 bytes after `pos` (the "old" 32-byte layout) is always rejected. */
  lemma OldLayoutRejected(data: seq<byte>, pos: nat)
    requires pos <= |data| && |data| - pos < CONFIG_SIZE
    ensures ReadConfigSpec(data, pos).Err?
  {
  }

  /** Acceptance, stated without the reader's order of checks. */
  lemma ReadConfigAcceptsExactly(data: seq<byte>, pos: nat)
    requires pos <= |data|
    ensures ReadConfigSpec(data, pos).Ok? <==>
      pos + HEADER_SIZE <= |data|
      && FieldAt(data[pos..pos + CONFIG_SIZE], 0) == CHECKPOINT_MAGIC
      && FieldAt(data[pos..pos + CONFIG_SIZE], 1) == CHECKPOINT_VERSION
      && DimensionsPositive(RawAt(data[pos..pos + CONFIG_SIZE], F32_10000))
  {
    if pos + CONFIG_SIZE <= |data| {
      BlockPrefix(data, pos, 0);
      BlockPrefix(data, pos, 1);
    }
  }

  // ---------------------------------------------------------------------
  // The on-disk layout written by the format-compatibility test

  /** Header words as a writer lays them out: magic, version, seven dimensions, rope_theta. */
  datatype HeaderFields = HeaderFields(
    vocabSize: u32, dim: u32, hiddenDim: u32, nLayers: u32, nHeads: u32,
    nKvHeads: u32, seqLen: u32, ropeTheta: f32)

  function HeaderWords(f: HeaderFields): seq<u32>
  {
    [CHECKPOINT_MAGIC, CHECKPOINT_VERSION, f.vocabSize, f.dim, f.hiddenDim, f.nLayers,
     f.nHeads, f.nKvHeads, f.seqLen, f.ropeTheta]
  }

  /** Ten words followed by the padding and weights that complete the file. */
  function EncodeHeader(f: HeaderFields, rest: seq<byte>): seq<byte>
  {
    Words(HeaderWords(f)) + rest
  }

  predicate SmallPositive(x: u32) { 0 < x < 0x8000_0000 }

  predicate FieldsValid(f: HeaderFields)
  {
    SmallPositive(f.vocabSize) && SmallPositive(f.dim) && f.hiddenDim < 0x8000_0000
    && SmallPositive(f.nLayers) && SmallPositive(f.nHeads) && SmallPositive(f.nKvHeads)
    && SmallPositive(f.seqLen)
  }

  lemma EncodedFields(f: HeaderFields, rest: seq<byte>)
    ensures |EncodeHeader(f, rest)| >= 40
    ensures forall k :: 0 <= k < 9 ==>
      FieldAt(EncodeHeader(f, rest)[..CONFIG_SIZE], k) == I32FromBits(HeaderWords(f)[k])
    ensures U32At(EncodeHeader(f, rest), 36) == f.ropeTheta
  {
    var s := EncodeHeader(f, rest);
    var ws := HeaderWords(f);
    forall k | 0 <= k < 9
      ensures FieldAt(s[..CONFIG_SIZE], k) == I32FromBits(ws[k])
    {
      WordsRead(ws, rest, k);
      U32AtPrefix(s, 4 * k, CONFIG_SIZE);
    }
    WordsRead(ws, rest, 9);
  }

  /**
   * A header written in the documented layout, followed by enough bytes to
   * complete the 256-byte header, is read back with every dimension intact;
   * the rope_theta written at offset 36 is replaced by the default.
   */
  lemma {:induction false} ReadConfigOfEncoded(f: HeaderFields, rest: seq<byte>)
    requires FieldsValid(f) && |rest| >= HEADER_SIZE - 40
    ensures ReadConfigSpec(EncodeHeader(f, rest), 0) == Ok(ModelConfig(
      f.dim, f.hiddenDim, f.nLayers, f.nHeads, f.nKvHeads, f.dim / f.nHeads,
      f.seqLen, f.vocabSize, DEFAULT_GROUP_SIZE, true, F32_10000))
    ensures PositionAfter(EncodeHeader(f, rest), 0) == HEADER_SIZE
  {
    var s := EncodeHeader(f, rest);
    EncodedFields(f, rest);
    assert s[0..CONFIG_SIZE] == s[..CONFIG_SIZE];
    BlockPrefix(s, 0, 0);
    BlockPrefix(s, 0, 1);
    var raw := RawAt(s[..CONFIG_SIZE], F32_10000);
    assert raw.magic == CHECKPOINT_MAGIC && raw.version == CHECKPOINT_VERSION;
    assert DimensionsPositive(raw);
  }

  /**
   * The discrepancy: a file whose header stores rope_theta = 1000000.0
   * (bits 0x49742400) is read with rope_theta = 10000.0.
   */
  lemma RopeThetaIgnored()
    ensures var f := HeaderFields(32000, 768, 2048, 12, 12, 12, 2048, 0x4974_2400);
            var s := EncodeHeader(f, seq(216, _ => 0));
            ReadConfigSpec(s, 0).Ok? && ReadConfigSpec(s, 0).value.ropeTheta != f.ropeTheta
  {
    var f := HeaderFields(32000, 768, 2048, 12, 12, 12, 2048, 0x4974_2400);
    ReadConfigOfEncoded(f, seq(216, _ => 0));
  }

  // ---------------------------------------------------------------------
  // The header reader as evidently intended: a 40-byte block (nine words and
  // rope_theta), and a 36-byte block without rope_theta for older files.

  const INTENDED_CONFIG_SIZE: nat := 40
  const INTENDED_OLD_CONFIG_SIZE: nat := 36

  function ReadConfigIntended(data: seq<byte>, pos: nat): (r: Result<ModelConfig, HeaderError>)
    requires pos <= |data|
    ensures r.Ok? && |data| - pos >= INTENDED_CONFIG_SIZE ==> r.value.ropeTheta == U32At(data, pos + 36)
    ensures r.Ok? && |data| - pos < INTENDED_CONFIG_SIZE ==> r.value.ropeTheta == F32_10000
  {
    var remaining := |data| - pos;
    if remaining < INTENDED_OLD_CONFIG_SIZE then Err(ConfigBlockUnavailable)
    else if remaining < HEADER_SIZE then Err(SkipFailed)
    else
      var block := data[pos..pos + INTENDED_CONFIG_SIZE];
      assert U32At(block, 36) == U32At(data, pos + 36);
      ToModelConfig(RawAt(block, U32At(block, 36)))
  }

  /** With the intended layout, every header field written, rope_theta included, is read back. */
  lemma {:induction false} IntendedRoundTrip(f: HeaderFields, rest: seq<byte>)
    requires FieldsValid(f) && |rest| >= HEADER_SIZE - 40
    ensures ReadConfigIntended(EncodeHeader(f, rest), 0) == Ok(ModelConfig(
      f.dim, f.hiddenDim, f.nLayers, f.nHeads, f.nKvHeads, f.dim / f.nHeads,
      f.seqLen, f.vocabSize, DEFAULT_GROUP_SIZE, true, f.ropeTheta))
  {
    var s := EncodeHeader(f, rest);
    EncodedFields(f, rest);
    var block := s[0..INTENDED_CONFIG_SIZE];
    forall k | 0 <= k < 9
      ensures FieldAt(block, k) == FieldAt(s[..CONFIG_SIZE], k)
    {
      assert block[4 * k..4 * k + 4] == s[..CONFIG_SIZE][4 * k..4 * k + 4];
    }
    assert U32At(block, 36) == f.ropeTheta;
    var raw := RawAt(block, U32At(block, 36));
    assert raw.magic == CHECKPOINT_MAGIC && raw.version == CHECKPOINT_VERSION;
    assert DimensionsPositive(raw);
  }
}
