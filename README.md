# pico-qwen core, modelled in Dafny

pico-qwen runs Qwen3 language models on the CPU. It has two engines and
two front ends, and this project models the parts of each that decide what
happens, not the floating-point arithmetic:

- **The C library** (`qwen3-c-lib`): the checkpoint loader (header
  validation, the per-layer quantized tensors, the embedding table), the
  tokenizer (the vocabulary file reader, the whitespace word splitter that
  maps each word to its djb2 hash modulo the vocabulary size, and
  decoding of ids), multi-head attention with its KV cache and the
  grouped-query head mapping, the transformer's configuration and layer
  bookkeeping, and the inference loop (generation into a caller's buffer,
  the chat loop, sampler configuration).
- **The Rust engine** (`qwen3-inference`): the checkpoint header reader,
  the quantization levels (int4 and int8 with a group size, fp16, fp32)
  with their text forms, memory accounting and per-target choice (the
  quantize and dequantize kernels themselves are not modelled), the CPU feature
  and cache probing results and the optimization strategy chosen from
  them, the extended configuration with its validation, the extended
  transformer built on top of it, and the by-value configuration builder
  with `run_inference`'s mode dispatch.
- **The API server** (`qwen3-api`): the model registry and its statistics,
  the generate and chat handlers, and the per-client rate limiter.
- **The CLI** (`qwen3-cli`): model discovery on disk and the export
  checks.

Each source file becomes one Dafny module. Code that is a pure
computation is a `function` with lemmas about it; code that mutates an
object (the KV cache, the transformer's buffers, the C inference context,
the registry, the rate limiter) is a `class` whose methods state the whole
new state with `modifies` and `ensures`, and whose loops carry their
invariants.

Conventions used throughout:

- `f32` values (rope_theta, temperature, top_p) are kept as their 32-bit
  patterns (`Bytes.f32`); the model compares and stores them but never
  computes with them.
- Fixed-width integer arithmetic is written out where it can wrap
  (`Bytes.WrapU32`, `Bytes.WrapU64`): the C loader's `uint32_t` size
  products, the tokenizer's djb2 hash, the registry's atomic counters.
- The numeric kernels are oracles: the forward pass, the sampler and the
  checkpoint loader of the extended transformer are parameters, and the
  properties proved hold for every oracle.
- The clock is a parameter `now`; the iteration order of a concurrent map
  is an input enumeration of its keys; the file system is a listing given
  as a value.

The two checkpoint-header readers disagree. The Rust reader
(`qwen3-inference/src/configuration.rs`) reads a 36-byte block of nine
words, so its test for a tenth word never succeeds: rope_theta is always
the default 10000.0 (see Findings), and its 32-byte fallback cannot be
completed because the block read already needs 36 bytes. The C reader
(`qwen3-c-lib/src/model.c`) reads 40 bytes, takes rope_theta from them,
never skips to offset 256, and rejects configurations above its upper
bounds or with more key-value heads than heads.

## Model

| member | source | states |
|---|---|---|
| ApiGeneration.RoleLabel | qwen3-api/src/handlers/chat.rs:188-207 | the three known roles are capitalised; any other role is written as given; the label is as long as the role |
| ApiGeneration.MessageTextLabelled | qwen3-api/src/handlers/chat.rs:188-208 | each message becomes its label, ": ", its content and a blank line, four characters longer than role and content |
| ApiGeneration.TranscriptAppend | qwen3-api/src/handlers/chat.rs:187-209 | the transcript of two conversations in a row is the two transcripts in a row |
| ApiGeneration.FormatMessages | qwen3-api/src/handlers/chat.rs:184-213 | the prompt is every message's text in order followed by "Assistant:" |
| ApiGeneration.PromptForwards | qwen3-api/src/handlers/chat.rs:146-154 | the prompt phase forwards all prompt tokens but the last, or stops at the context length if that comes first |
| ApiGeneration.Generated | qwen3-api/src/handlers/chat.rs:157-173 | at most the budget, no stop token emitted, never past the context, and the forwarded tokens are the history, the pending token and the emitted ones in order, at most the last one not forwarded; with room and budget at least one token is forwarded |
| ApiGeneration.GeneratedStep | qwen3-api/src/handlers/chat.rs:158-172 | one iteration forwards the pending token and samples: a stop token ends generation with nothing emitted, any other token is emitted and becomes the pending one |
| ApiGeneration.GeneratedFillsContext | qwen3-api/src/handlers/chat.rs:157-173 | when no stop token is ever sampled, exactly the smaller of the budget and the free context is generated |
| ApiGeneration.ForwardPrompt | qwen3-api/src/handlers/chat.rs:141-154 | the loop forwards exactly the prompt tokens `PromptForwards` counts and leaves the next one pending |
| ApiGeneration.GenerationLoop | qwen3-api/src/handlers/chat.rs:156-173 | the loop emits and forwards exactly what `Generated` describes, with EOS and BOS as stop tokens |
| ApiGeneration.GenerateApiResponse | qwen3-api/src/handlers/chat.rs:129-182 | fails with "Empty prompt" exactly when the prompt encodes to nothing; otherwise the text is the decoded generated tokens |
| ApiGeneration.GenerationBounds | qwen3-api/src/handlers/chat.rs:129-182 | at most `max_tokens` tokens, none EOS or BOS, no position at or past the context, the prompt prefix forwarded first and each emitted token fed back in order |
| ApiGeneration.ZeroContextGeneratesNothing | qwen3-api/src/handlers/chat.rs:141-173 | a zero-length context forwards and generates nothing |
| ApiGeneration.SettingsFor | qwen3-api/src/handlers/chat.rs:66-84 | the sampler gets the model's vocabulary, seed 42, and the request's temperature and top-p, 0.7 and 0.9 when absent |
| ApiGeneration.UsageOf | qwen3-api/src/handlers/chat.rs:91-107 | prompt and completion tokens are the encoded lengths of the prompt and the reply, and the total is their sum |
| ApiGeneration.Reply | qwen3-api/src/handlers/chat.rs:62-108 | succeeds exactly when the tokenizer opens and the prompt encodes to something, with the generated text and its usage (100 tokens unless asked otherwise); every failure is a 500 |
| ApiGeneration.Serve | qwen3-api/src/handlers/chat.rs:50-120 | succeeds exactly when the model is registered, its tokenizer opens and the prompt encodes to something; an unknown model gives 404 "Model not found", every other failure 500, and failures leave the registry alone; a success answers the registered model's decoded generation with its usage and updates exactly that entry's request count, token total and last-use time |
| ApiGeneration.ChatAnswer | qwen3-api/src/handlers/chat.rs:95-104 | one choice: an "assistant" message holding the trimmed text, finish reason "stop", and the given usage |
| ApiGeneration.ChatHandler | qwen3-api/src/handlers/chat.rs:41-127 | succeeds exactly when the model can answer the transcript prompt; then one assistant choice holding the trimmed answer, finish reason "stop", the answer's usage (consistent totals), and the model's statistics updated; failures are 404 or 500 and leave the registry alone; the in-flight counter is restored on success but stays one higher after any failure |
| ApiGeneration.GenerateHandler | qwen3-api/src/handlers/generate.rs:29-111 | succeeds exactly when the model can answer the prompt; then the trimmed answer with its usage (consistent totals) and the model's statistics updated; an unknown model gives 404, other failures 500, and failures leave the registry alone; the in-flight counter stays one higher after any failure |
| ApiGeneration.ChatHandlerBalanced | qwen3-api/src/handlers/chat.rs:45-124 | the chat endpoint with the counter released on every path: the same answers, errors and registry updates as the endpoint as written, and the counter is the same after every request |
| Attention.SplicedNothing | qwen3-c-lib/src/attention.c:91-96 | copying no floats changes nothing |
| Attention.SplicedExtend | qwen3-c-lib/src/attention.c:87-99 | two copies into adjacent ranges make one copy of the joined range |
| Attention.SplicedPrefix | qwen3-c-lib/src/attention.c:87-99 | after a copy into `[lo, hi)`, the front of the buffer is the old front followed by the copied floats |
| Attention.Memcpy | qwen3-c-lib/src/attention.c:91-96 | `memcpy` of `n` floats: the destination range holds the source's floats and everything else is untouched |
| Attention.CopyOnward | qwen3-c-lib/src/attention.c:87-99 | the append loop's copying extends a copied range by `n` more floats |
| Attention.CopyFront | qwen3-c-lib/src/attention.c:115-116 | the first `n` floats of the source land at the front of the destination, the rest untouched |
| Attention.KVCache.constructor | qwen3-c-lib/src/attention.c:25-48 | an empty cache without storage |
| Attention.KVCache.Init | qwen3-c-lib/src/attention.c:25-48 | −1, with the cache unchanged, exactly when a dimension is zero; otherwise 0 with fresh zeroed key and value storage of `max_seq_len · num_kv_heads · head_dim` floats, no cached rows and the dimensions recorded |
| Attention.KVCache.Free | qwen3-c-lib/src/attention.c:53-61 | the storage is released and the row count reset; the dimensions stay |
| Attention.KVCache.Clear | qwen3-c-lib/src/attention.c:66-69 | the row count is reset and the storage kept |
| Attention.KVCache.Append | qwen3-c-lib/src/attention.c:74-102 | −1, with nothing changed, exactly for a missing key or value, an empty batch or a batch that would overflow `max_seq_len`; otherwise the batch's rows are copied behind the cached ones and the count grows by the batch size |
| Attention.KVCache.AppendRows | qwen3-c-lib/src/attention.c:80-101 | in terms of the cached contents: on success the keys and values are the old ones followed by the batch's rows |
| Attention.KVCache.Get | qwen3-c-lib/src/attention.c:107-119 | −1, with the outputs untouched, exactly for a missing output or a length beyond the cached rows; otherwise the outputs start with the first `seq_len` cached rows |
| Attention.MaskEntry | qwen3-c-lib/src/attention.c:130-134 | 0 exactly for a visible position (`j ≤ i`, and `j + window > i` with a sliding window), −∞ otherwise |
| Attention.WindowNarrowsCausalMask | qwen3-c-lib/src/attention.c:130-134 | the window only hides positions; a window longer than the row index hides nothing more; a zero window hides everything; a token sees itself and not its successor |
| Attention.MaskStep | qwen3-c-lib/src/attention.c:128-136 | writing one entry extends the masked part of the matrix by one |
| Attention.CausalMask | qwen3-c-lib/src/attention.c:124-137 | a missing mask is left alone; otherwise all `seq_len²` entries are written with their visibility and the rest of the buffer is untouched |
| Attention.KvHeadInRange | qwen3-c-lib/src/attention.c:241-255 | when the head counts divide, every query head maps to a valid key/value head, and to the group holding it |
| Attention.SdpaHeads | qwen3-c-lib/src/attention.c:224-255 | −1 exactly when the head count is not a multiple of the key/value head count; otherwise each query head attends over key/value head `h / group_size`, which is in range |
| Attention.Snapshot | qwen3-c-lib/src/attention.c:331-340 | new buffers holding every cached key and value |
| Attention.Mha | qwen3-c-lib/src/attention.c:315-363 | a full cache fails with nothing changed, cached values included; otherwise the step's key and value become the last cached row, the copies hold all cached rows, attention runs with `seq_len` set to the row count, and it fails exactly for incompatible head counts |
| Attention.Optimize | qwen3-c-lib/src/attention.c:368-387 | only the window fields may change; when the estimated bytes exceed the available memory the window is switched on at 1024, otherwise the configuration is returned unchanged |
| Attention.OptimizeIdempotentAndMonotone | qwen3-c-lib/src/attention.c:368-387 | optimizing twice changes nothing more; more memory never switches the window on where less did not; the estimate is four bytes per query, key, value and score float |
| ConfigBuilder.NewBuilder | qwen3-inference/src/lib.rs:56-73 | a builder with no field set |
| ConfigBuilder.WithCheckpointPath | qwen3-inference/src/lib.rs:76-79 | sets the checkpoint path (or clears it) and nothing else |
| ConfigBuilder.WithTemperature | qwen3-inference/src/lib.rs:80-83 | sets the temperature and nothing else |
| ConfigBuilder.WithTopP | qwen3-inference/src/lib.rs:84-87 | sets top-p and nothing else |
| ConfigBuilder.WithCtxLength | qwen3-inference/src/lib.rs:88-91 | sets the context length and nothing else |
| ConfigBuilder.WithMode | qwen3-inference/src/lib.rs:92-95 | sets the mode and nothing else |
| ConfigBuilder.WithPrompt | qwen3-inference/src/lib.rs:96-99 | sets the prompt and nothing else |
| ConfigBuilder.WithSystemPrompt | qwen3-inference/src/lib.rs:100-103 | sets the system prompt and nothing else |
| ConfigBuilder.WithEnableThinking | qwen3-inference/src/lib.rs:104-107 | sets the thinking flag and nothing else |
| ConfigBuilder.WithSeed | qwen3-inference/src/lib.rs:108-111 | sets the seed and nothing else |
| ConfigBuilder.WithMaxTokens | qwen3-inference/src/lib.rs:112-115 | sets the token limit and nothing else |
| ConfigBuilder.Build | qwen3-inference/src/lib.rs:116-134 | fails with "checkpoint_path is required" exactly when no path was set; otherwise every set field is kept and every unset one defaults (1.0, 0.9, "chat", no thinking, the clock's seconds, 50 tokens) |
| ConfigBuilder.BuildDetermined | qwen3-inference/src/lib.rs:116-134 | keeping the set fields and defaulting the others determines the configuration completely |
| ConfigBuilder.BuildDefaults | qwen3-inference/src/lib.rs:116-134 | a builder with only a path gives the all-default configuration |
| ConfigBuilder.BuildNeedsCheckpoint | qwen3-inference/src/lib.rs:118 | an empty builder fails with the missing-path message |
| ConfigBuilder.BuildRoundTrip | qwen3-inference/src/lib.rs:76-134 | setting every field of a configuration through the setters builds that configuration back, whatever the clock |
| ConfigBuilder.SeededBuildIgnoresClock | qwen3-inference/src/lib.rs:126-131 | with a seed set the clock does not matter |
| ConfigBuilder.RunInference | qwen3-inference/src/lib.rs:138-185 | a loading error comes first; then "generate" runs with the prompt and the token limit, "chat" with both prompts, and any other mode fails |
| ConfigBuilder.DefaultModeChats | qwen3-inference/src/lib.rs:122-182 | a configuration built without a mode runs chat with the builder's prompts |
| CliModels.ReplaceFirstAbsent | qwen3-cli/src/main.rs:278 | replacing a pattern that does not occur leaves the text alone |
| CliModels.ReplaceFirstAtStart | qwen3-cli/src/main.rs:276-281 | replacing a pattern the text starts with replaces that leading occurrence |
| CliModels.ExpandPath | qwen3-cli/src/main.rs:275-284 | "~/..." gets the home directory (or ".") in place of "~", "$HOME..." in place of "$HOME", and anything else is left as it is |
| CliModels.ExpandPathKeepsPlainPaths | qwen3-cli/src/main.rs:275-284 | a path mentioning neither "~" nor "$HOME" is not changed |
| CliModels.LastDot | qwen3-cli/src/main.rs:296-301 | the position of the name's last '.', if any |
| CliModels.SplitExtension | qwen3-cli/src/main.rs:296-301 | a name with an extension is a non-empty stem, a dot and a dot-free extension; a name without one is all stem |
| CliModels.LastDotAt | qwen3-cli/src/main.rs:296-301 | a dot with no dot after it is the one found |
| CliModels.SplitExtensionRoundTrip | qwen3-cli/src/main.rs:296-301 | a stem and a dot-free extension joined by a dot split back into the two |
| CliModels.FormatLabel | qwen3-cli/src/main.rs:304-313 | INT4 exactly when the name contains "int4"; INT8 exactly when it contains "int8" and not "int4"; FP16 exactly when "fp16" only; BINARY otherwise |
| CliModels.FormatLabelOfQuantization | qwen3-cli/src/main.rs:304-313 | a file named after a quantization's canonical name gets its format label (FP32 files are BINARY) |
| CliModels.SaturatingSub | qwen3-cli/src/main.rs:328 | the difference, or zero when it would be negative |
| CliModels.AgeScale | qwen3-cli/src/main.rs:332-338 | minutes below an hour, hours below a day, days otherwise, each count the whole units elapsed |
| CliModels.AgeLabel | qwen3-cli/src/main.rs:315-340 | "just now" exactly below a minute (a file from the future included); otherwise the count and its unit |
| CliModels.RecentFilesAreJustNow | qwen3-cli/src/main.rs:328-331 | a file modified less than a minute ago, or later than now, is "just now" |
| CliModels.PathLabel | qwen3-cli/src/main.rs:253-257 | "HF" exactly when the path contains "HuggingFace", "custom" otherwise |
| CliModels.DefaultDirectoryIsHuggingFace | qwen3-cli/src/main.rs:253-284 | every model under "~/HuggingFace/" is labelled HF, wherever home is |
| CliModels.Describe | qwen3-cli/src/main.rs:297-348 | a listed file is described by its stem, path, length and the stem's format label |
| CliModels.ListedComplete | qwen3-cli/src/main.rs:293-351 | every `.bin` entry with readable metadata is listed |
| CliModels.ListedSound | qwen3-cli/src/main.rs:293-351 | everything listed describes such an entry |
| CliModels.BinFileListed | qwen3-cli/src/main.rs:296-302 | "<stem>.bin" with readable metadata is listed under the stem |
| CliModels.LessTransitive | qwen3-cli/src/main.rs:355 | the name order is transitive |
| CliModels.LessIrreflexive | qwen3-cli/src/main.rs:355 | no name precedes itself |
| CliModels.InsertByName | qwen3-cli/src/main.rs:355 | insertion adds exactly the one description |
| CliModels.InsertKeepsSorted | qwen3-cli/src/main.rs:355 | inserting into a sorted list keeps it sorted by name |
| CliModels.SortByName | qwen3-cli/src/main.rs:355 | the sorted list is a permutation of the input |
| CliModels.SortByNameSorted | qwen3-cli/src/main.rs:355 | the sorted list is ordered by name |
| CliModels.DiscoverModels | qwen3-cli/src/main.rs:272-358 | fails with "Directory does not exist: " and the expanded path exactly when it does not exist; otherwise the listed descriptions sorted by name |
| CliModels.DiscoveredModels | qwen3-cli/src/main.rs:272-358 | the result is sorted by name, lists every `.bin` file with metadata and nothing else |
| CliModels.ExportChecks | qwen3-cli/src/main.rs:132-170 | `export` proceeds exactly when the group size parses as a `usize`, the directory exists and holds config.json, tokenizer.json and a `.safetensors` file; each failure has its message, in that order |
| CliModels.ExportAcceptsCompleteDirectory | qwen3-cli/src/main.rs:132-170 | a complete model directory passes with the group size given in decimal |
| CModelLoader.CFile.constructor | qwen3-c-lib/src/model.c:209-218 | an open stream over the file's bytes, at offset 0 |
| CModelLoader.CFile.ReadU32 | qwen3-c-lib/src/model.c:81-87 | `fread` of one word: with four bytes left, the little-endian word and a move of four bytes; otherwise failure, the stream at the end |
| CModelLoader.CFile.Read | qwen3-c-lib/src/model.c:182-190 | `fread` of `n` bytes succeeds exactly when they are there, and moves past them; a short read leaves the stream at the end |
| CModelLoader.CFile.SeekForward | qwen3-c-lib/src/model.c:276-291 | `fseek(SEEK_CUR)` moves forward by the offset |
| CModelLoader.ValidateModelConfig | qwen3-c-lib/src/model.c:99-137 | accepts exactly the configurations inside all seven ranges (vocabulary up to 1000000, dim up to 16384, hidden up to 65536, layers up to 100, heads up to 128, key/value heads up to the head count, sequence up to 65536); a failure names a field, the vocabulary first |
| CModelLoader.LoadModelConfig | qwen3-c-lib/src/model.c:139-164 | the result is the configuration definition: magic checked after its read, version after its read, then seven dimensions and rope_theta, then the ranges; success leaves the stream 40 bytes on |
| CModelLoader.LayerTensorElements | qwen3-c-lib/src/model.c:294-343 | seven tensors per layer |
| CModelLoader.LoadQuantizedTensor | qwen3-c-lib/src/model.c:166-200 | succeeds exactly when the int8 values and the group scales (count computed in 32 bits) are all there, and then moves past them; a failure leaves the stream at the end |
| CModelLoader.FirstTensorNonEmpty | qwen3-c-lib/src/model.c:296-297 | for an accepted configuration the first layer tensor takes at least one byte |
| CModelLoader.LoadLayer | qwen3-c-lib/src/model.c:295-342 | one layer's seven tensors load exactly when the layer's bytes are all there, and then the stream is past them |
| CModelLoader.LoadLayers | qwen3-c-lib/src/model.c:294-343 | all layers load exactly when `n_layers` layers' bytes are there, and then the stream is past them |
| CModelLoader.LoadModel | qwen3-c-lib/src/model.c:203-374 | the result is the loader definition: a missing path, an unopenable file, a file over 10 GiB, a bad configuration and missing weights fail, in that order; otherwise the model with the context override, the head size and group size 64 |
| CModelLoader.SameLayout | qwen3-c-lib/src/model.c:247-254 | the context override changes neither the head size nor any tensor or skip size, and keeps an accepted configuration accepted |
| CModelLoader.WithContext | qwen3-c-lib/src/model.c:247-250 | only the sequence length changes, and only to a non-zero override no larger than the stored one |
| CModelLoader.LoadSucceedsIff | qwen3-c-lib/src/model.c:203-374 | a model loads exactly when the file exists, is at most 10 GiB, starts with magic and version, carries an accepted configuration and holds every tensor it calls for |
| CModelLoader.LoadedModelInRange | qwen3-c-lib/src/model.c:243-254 | a loaded model's configuration is in range, its context is no larger than the stored one, and its heads fit the width |
| CModelLoader.LayerCountsExact | qwen3-c-lib/src/model.c:274-343 | for accepted configurations the 32-bit element counts and skip sizes of the layers equal the exact products |
| CModelLoader.HeadDimBound | qwen3-c-lib/src/model.c:253 | the heads never overfill the width |
| CModelLoader.EmbeddingCountWraps | qwen3-c-lib/src/model.c:346-347 | vocabulary 262144 and dim 16384 pass validation, but their 32-bit product is 0, so an empty embedding table is read |
| CModelLoader.EmbeddingBytesIntended | qwen3-c-lib/src/model.c:346-347 | the intended table takes at least one byte per entry and dimension, and agrees with the loader whenever the product fits 32 bits |
| CModelLoader.EmbeddingIntendedCoversTable | qwen3-c-lib/src/model.c:346-347 | with the intended count every accepted configuration reads a non-empty table covering every entry and dimension |
| CpuProbe.ArchitectureToString | qwen3-inference/src/cpu/mod.rs:34-42 | any other architecture prints as its own name |
| CpuProbe.OptimizationLevelToString | qwen3-inference/src/cpu/mod.rs:190-199 | each level prints as a lower-case name of at least four letters |
| CpuProbe.OptimizationLevelNamesDistinct | qwen3-inference/src/cpu/mod.rs:190-199 | two levels print alike exactly when they are the same level |
| CpuProbe.SupportsFeature | qwen3-inference/src/cpu/mod.rs:168-170 | a feature is supported exactly when some listed feature equals it ignoring ASCII case, in particular when it is listed as spelled |
| CpuProbe.SupportsFeatureIgnoresCase | qwen3-inference/src/cpu/mod.rs:168-170 | a feature spelled in another ASCII letter case is found the same way |
| CpuProbe.GetOptimizationLevel | qwen3-inference/src/cpu/mod.rs:172-179 | AVX-512 exactly when "avx512f" is listed; AVX2 exactly when "avx2" is and "avx512f" is not; NEON exactly when only "neon" of the three is |
| CpuProbe.OptimizationLevelOfFeatures | qwen3-inference/src/cpu/mod.rs:168-179 | scalar exactly without the three features; listing one more feature never brings a vector level down to scalar |
| CpuProbe.ClassifyX86Brand | qwen3-inference/src/cpu/mod.rs:76-95 | only an Intel brand gives a named target; the i9-14900HX exactly when the lower-cased brand names Intel and "i9-14900hx"; the N100 only when it names "n100"; otherwise Generic |
| CpuProbe.ClassifyArmCpuinfo | qwen3-inference/src/cpu/mod.rs:98-120 | a Raspberry Pi 5 exactly when the lower-cased text names it; an Apple chip only when it names "apple" and neither board |
| CpuProbe.ArmClassificationPriority | qwen3-inference/src/cpu/mod.rs:105-114 | a text naming both boards is a Pi 5; an Apple text naming both chips is an M2 |
| CpuProbe.DetectTarget | qwen3-inference/src/cpu/mod.rs:57-73 | x86_64 classifies the brand string, aarch64 the cpuinfo text, anything else is Generic; never a custom target |
| CpuProbe.GetBrand | qwen3-inference/src/cpu/mod.rs:224-255 | on x86_64 the CPUID brand string or "unknown"; on aarch64 the brand found in /proc/cpuinfo's lines, or "unknown" without the file; "unknown" on any other architecture |
| CpuProbe.BrandUnknownWithoutModelLine | qwen3-inference/src/cpu/mod.rs:239-248 | cpuinfo text with no usable "model name" line gives "unknown" |
| CpuProbe.BrandFromFirstModelLine | qwen3-inference/src/cpu/mod.rs:240-245 | the brand is the trimmed text after the ':' of the first usable "model name" line |
| CpuProbe.SysfsCacheKb | qwen3-inference/src/cpu/mod.rs:304-310 | the default stays unless the trimmed file text ends in "K" and the rest parses as a `usize`, which is then the size |
| CpuProbe.TrimDigitsK | qwen3-inference/src/cpu/mod.rs:305 | trimming the kernel's "NK\n" leaves "NK" |
| CpuProbe.SysfsCacheKbRoundTrip | qwen3-inference/src/cpu/mod.rs:304-326 | a size file as the kernel writes it ("48K" and a newline) reads back as the size |
| CpuProbe.DetectCacheSizesArm | qwen3-inference/src/cpu/mod.rs:297-334 | L1 instruction is 32 KB; each other level is its size file's reading, with 32, 512 and 8192 KB when a file is missing or unreadable |
| CpuOptimizations.GenericFallback | qwen3-inference/src/cpu_optimizations.rs:113-125 | an unknown vendor with no features, a 4 MiB cache, 25600 MB/s, four cores and four threads, family, model and stepping 0 |
| CpuOptimizations.MemTotalKb | qwen3-inference/src/cpu_optimizations.rs:158-167 | a size read from /proc/meminfo's lines is always a valid `usize` |
| CpuOptimizations.MemTotalKbFirst | qwen3-inference/src/cpu_optimizations.rs:158-167 | /proc/meminfo gives a size exactly when some line starts with "MemTotal:" and has a second word parsing as a `usize`, and then it is the first such line's |
| CpuOptimizations.FallbackMemoryMb | qwen3-inference/src/cpu_optimizations.rs:172-177 | 8 GB exactly for Intel and AMD, 4 GB otherwise |
| CpuOptimizations.EstimateTotalMemoryMb | qwen3-inference/src/cpu_optimizations.rs:154-178 | the first MemTotal line's kilobytes divided by 1024 when /proc/meminfo is readable and has one, the vendor's fallback otherwise |
| CpuOptimizations.QuantizationForMemory | qwen3-inference/src/cpu_optimizations.rs:138-150 | always Int8 with group 64 or 128 or Int4 with group 64; Int8/128 exactly for an Intel with at least 4 GB that does not qualify for Int8/64; Int4 exactly when no guard of the match holds |
| CpuOptimizations.OptimalQuantizationWithoutMeminfo | qwen3-inference/src/cpu_optimizations.rs:133-177 | without /proc/meminfo: Intel always gets Int8 (64 with AVX2, 128 without), AMD Int8/64 only with AVX2, ARM Int8/64 only with NEON, unknown Int4/64 |
| CpuOptimizations.QuantizationMonotoneInMemory | qwen3-inference/src/cpu_optimizations.rs:138-150 | more memory never turns an Int8 choice into Int4 and never coarsens Int8/64 |
| CpuOptimizations.SimdWidth | qwen3-inference/src/cpu_optimizations.rs:419-431 | 16 exactly with AVX-512F; at least 8 exactly with AVX-512F, AVX2 or AVX; at least 4 exactly when SSE is also counted; otherwise 1 |
| CpuOptimizations.GetCacheInfo | qwen3-inference/src/cpu_optimizations.rs:181-214 | all zero without AVX or without CPUID; otherwise L2 is the word's upper 16 bits and L3 its lower 16 bits; L1 and the line size stay 0 |
| CpuOptimizations.BlockSize | qwen3-inference/src/cpu_optimizations.rs:265-267 | the largest count whose 12-fold fits in the cache's bytes, capped |
| CpuOptimizations.FromCacheInfo | qwen3-inference/src/cpu_optimizations.rs:264-275 | each level's block is at most its cap (64 Ki, 256 Ki, 1 Mi) and at most the level's bytes; the vector width is passed through |
| CpuOptimizations.ParallelFor | qwen3-inference/src/cpu_optimizations.rs:227-233 | single-threaded exactly below four cores; otherwise at least one thread and at most half the cores |
| CpuOptimizations.ForCpu | qwen3-inference/src/cpu_optimizations.rs:219-244 | the SIMD width of the features, alignment of four bytes per lane, FMA exactly with FMA, AVX-512 exactly at width 16, the cache blocks, thread policy and quantization of the CPU |
| CpuOptimizations.ForCpuCacheBlocks | qwen3-inference/src/cpu_optimizations.rs:219-275 | the L1 block is always 0, and so are L2 and L3 without AVX or CPUID |
| CpuOptimizations.ForCpuBlocksUnordered | qwen3-inference/src/cpu_optimizations.rs:264-275 | blocks need not shrink with the level nor be a multiple of the vector width: an AVX CPU with 256 KB L2 and 64 KB L3 gets 21845 and 5461 |
| CpuOptimizations.GemmTileSize | qwen3-inference/src/cpu_optimizations.rs:252-259 | square m by n tiles of at most 8 with k at most m; any width other than 4, 8 and 16 gets (2, 2, 2) |
| CpuOptimizations.GemmTileMonotone | qwen3-inference/src/cpu_optimizations.rs:252-259 | a wider vector never gets a smaller tile in any dimension |
| ExtendedConfig.ForCpuTarget | qwen3-inference/src/extended_config.rs:125-139 | keeps the base and the target, has no cloud provider, takes the target's memory limits and preferred quantization, and the default paths ("model.bin"), inference parameters (top-k 50, 512 tokens, a fixed 4096 context) and advanced settings (info logging, no GPU) |
| ExtendedConfig.New | qwen3-inference/src/extended_config.rs:107-122 | the same configuration as for the detected target |
| ExtendedConfig.WithCloudProvider | qwen3-inference/src/extended_config.rs:142-145 | the cloud provider is set and nothing else changes |
| ExtendedConfig.WithMemoryLimits | qwen3-inference/src/extended_config.rs:148-151 | the limits are replaced and nothing else changes |
| ExtendedConfig.EstimateMemoryUsage | qwen3-inference/src/extended_config.rs:179-189 | the whole MiB in the estimated bytes (quantized weights plus KV cache plus activations), rounded down |
| ExtendedConfig.EstimatedBytes | qwen3-inference/src/extended_config.rs:179-187 | at least the quantized weights' bytes, and exactly those with a zero context length (no KV cache, no activations) |
| ExtendedConfig.EstimateOrderedByQuantization | qwen3-inference/src/extended_config.rs:179-189 | for one model, Int4 never estimates more than Int8, Int8 not more than FP16, FP16 not more than FP32 |
| ExtendedConfig.QuantizationCompatible | qwen3-inference/src/extended_config.rs:191-202 | Int8 is compatible with every target, and on the i9-14900HX nothing else is |
| ExtendedConfig.DefaultQuantizationCompatibility | qwen3-inference/src/extended_config.rs:192-203 | a target's preferred quantization passes the compatibility table except for the i9-14900HX (FP16) |
| ExtendedConfig.CompatibilityCoverage | qwen3-inference/src/extended_config.rs:192-203 | Int8 passes on every target, and it is the only quantization that does |
| ExtendedConfig.Validate | qwen3-inference/src/extended_config.rs:154-176 | passes exactly when the model file exists, the estimate is within the limit and the quantization suits the target; the checks fail in that order and carry the path or both sizes |
| ExtendedConfig.FreshConfigNeedsModelFile | qwen3-inference/src/extended_config.rs:107-157 | a fresh configuration fails with "model.bin" not found while that file is absent |
| ExtendedConfig.UpdateConfigIsUnchecked | qwen3-inference/src/extended_config.rs:230-236 | `update_config` does not revalidate: lowering the limit of a valid configuration to 0 yields one that fails validation |
| ExtendedConfig.LogLevelToString | qwen3-inference/src/extended_config.rs:280-290 | each level prints as a non-empty lower-case name |
| ExtendedConfig.ParseLogLevel | qwen3-inference/src/extended_config.rs:292-304 | an accepted text lower-cases to the level's name; a refused one fails with "Invalid log level: " and the text as given |
| ExtendedConfig.LogLevelRoundTrip | qwen3-inference/src/extended_config.rs:280-304 | any spelling whose lower case is a level's name parses back as that level |
| ExtendedConfig.LogLevelNamesLower | qwen3-inference/src/extended_config.rs:280-289 | every level prints in lower case |
| ExtendedConfig.ParseLogLevelAccepts | qwen3-inference/src/extended_config.rs:292-304 | parsing succeeds exactly on the five names in any ASCII case, and otherwise fails with "Invalid log level: " and the input |
| ExtendedTransformer.BuilderWithConfig | qwen3-inference/src/extended_transformer.rs:31-40 | holds the configuration, the detected CPU and the strategy derived for it |
| ExtendedTransformer.StrategyFor | qwen3-inference/src/extended_transformer.rs:32-33 | the strategy derived from the detected CPU: the SIMD width of its features, FMA exactly when listed, cache blocks from its cache sizes and that width, and the quantization chosen for its vendor and memory |
| ExtendedTransformer.SetConfig | qwen3-inference/src/extended_transformer.rs:43-46 | sets the configuration and nothing else |
| ExtendedTransformer.SetStrategy | qwen3-inference/src/extended_transformer.rs:49-52 | sets the strategy and nothing else |
| ExtendedTransformer.SetCpuInfo | qwen3-inference/src/extended_transformer.rs:55-58 | sets the CPU description and nothing else |
| ExtendedTransformer.BuildParts | qwen3-inference/src/extended_transformer.rs:61-88 | fails without a configuration, then with the validation error, then with the loader's; succeeds exactly when all three pass, with the loaded transformer, the configuration, the given CPU (else the detected one) and the given strategy (else the one for that CPU) |
| ExtendedTransformer.BuildValidatesBeforeLoading | qwen3-inference/src/extended_transformer.rs:66-77 | a missing or invalid configuration fails the same way whatever the loader would do, and never as a loading failure |
| ExtendedTransformer.CalculateQuantizationSavings | qwen3-inference/src/extended_transformer.rs:212-229 | the FP32 size and the quantized size of the dim by vocabulary table in whole MiB; nothing is saved when quantizing does not shrink it |
| ExtendedTransformer.SavingsAddUp | qwen3-inference/src/extended_transformer.rs:212-229 | for every quantization with a group of at least 2, saved plus quantized MiB fall short of the original by at most one |
| ExtendedTransformer.SavingsSaturate | qwen3-inference/src/extended_transformer.rs:218-222 | Int8 with group 1 is larger than FP32 and the saving saturates at 0 |
| ExtendedTransformer.MemoryStatsOf | qwen3-inference/src/extended_transformer.rs:199-210 | reports the configuration's memory estimate, its limit and its quantization savings |
| ExtendedTransformer.ExtendedTransformer.constructor | qwen3-inference/src/extended_transformer.rs:82-87 | the object holds the built transformer, configuration, strategy and CPU description |
| ExtendedTransformer.ExtendedTransformer.UpdateConfig | qwen3-inference/src/extended_transformer.rs:183-189 | the configuration is the updater's result even when it then fails validation, and the result is that validation |
| ExtendedTransformer.ExtendedTransformer.Stats | qwen3-inference/src/extended_transformer.rs:199-210 | the statistics of the current configuration, whose limit is the current one |
| ExtendedTransformer.Build | qwen3-inference/src/extended_transformer.rs:61-88 | a fresh object with exactly the parts `BuildParts` gives, or its error |
| ExtendedTransformer.CreateParts | qwen3-inference/src/extended_transformer.rs:103-155 | succeeds exactly when the checkpoint loads without a context limit; the configuration is the target's default for the loaded base with the model path replaced by the given one, with the detected CPU and its strategy |
| ExtendedTransformer.Create | qwen3-inference/src/extended_transformer.rs:103-155 | a fresh object with the configuration, transformer, strategy and CPU description `CreateParts` gives, or the loading error |
| CheckpointHeader.MemoryMapper.constructor | qwen3-inference/src/configuration.rs:79 | a mapper over the file's bytes, positioned at the start |
| CheckpointHeader.MemoryMapper.GetBytes | qwen3-inference/src/configuration.rs:81-85 | hands out the next `n` bytes and moves past them; fails without moving when fewer remain |
| CheckpointHeader.MemoryMapper.Skip | qwen3-inference/src/configuration.rs:144 | moves `n` bytes forward, or fails without moving past the end |
| CheckpointHeader.FirstNonPositive | qwen3-inference/src/configuration.rs:179-183 | nothing exactly when every named value is positive; otherwise the first value, in the checked order, that is not positive |
| CheckpointHeader.ValidateConfig | qwen3-inference/src/configuration.rs:150-186 | accepts exactly the right magic, the right version and six positive dimensions; a wrong magic is reported first, then a wrong version, then a non-positive dimension |
| CheckpointHeader.ToModelConfig | qwen3-inference/src/configuration.rs:53-72 | fails exactly as validation does; otherwise copies the dimensions, derives the head size as the rounded-down quotient, sets group size 64 and a shared classifier, and keeps rope_theta |
| CheckpointHeader.RawAt | qwen3-inference/src/configuration.rs:113-119 | the block's words, read as unsigned and cast to `i32`, fit the signed range |
| CheckpointHeader.BlockPrefix | qwen3-inference/src/configuration.rs:81-93 | magic and version read the same from the 36-byte and the 32-byte block |
| CheckpointHeader.ReadConfig | qwen3-inference/src/configuration.rs:79-147 | the result and the mapper's final position are those of the header definition: a 36-byte block, or failing that a 32-byte block, magic and version checked first, a 32-byte block failing at the seventh dimension, the 256-byte header skipped, then validation |
| CheckpointHeader.ReadConfigThetaIsDefault | qwen3-inference/src/configuration.rs:121-127 | every successful read has rope_theta 10000.0 |
| CheckpointHeader.OldLayoutRejected | qwen3-inference/src/configuration.rs:81-85 | fewer than 36 bytes (the "old" 32-byte layout) never read successfully |
| CheckpointHeader.ReadConfigAcceptsExactly | qwen3-inference/src/configuration.rs:79-186 | a read succeeds exactly when a full 256-byte header is present with the right magic, the right version and positive dimensions |
| CheckpointHeader.EncodedFields | test_format_compatibility.rs:39-53 | a header written word by word reads back word by word, rope_theta at offset 36 |
| CheckpointHeader.ReadConfigOfEncoded | test_format_compatibility.rs:33-64 | a header written in the documented layout reads back with every dimension intact and the mapper at byte 256, but with rope_theta replaced by 10000.0 |
| CheckpointHeader.RopeThetaIgnored | qwen3-inference/src/configuration.rs:121-127 | a file storing rope_theta 1000000.0 reads back with a different rope_theta |
| CheckpointHeader.ReadConfigIntended | qwen3-inference/src/configuration.rs:121-127 | with a 40-byte block, rope_theta is the word stored at offset 36 |
| CheckpointHeader.IntendedRoundTrip | qwen3-inference/src/configuration.rs:79-147 | with the 40-byte block, every field written, rope_theta included, reads back |
| InferenceInternal.TokenText | qwen3-c-lib/src/qwen3_inference_internal.c:236-240 | a sampled id contributes text only when it lies inside the table, and that text (what `strlen`/`strcat` see) holds no zero byte |
| InferenceInternal.Appended | qwen3-c-lib/src/qwen3_inference_internal.c:236-243 | the output only grows; when it grows, the token's text is appended whole and the result stays below `output_size − 1` bytes |
| InferenceInternal.StepsBounds | qwen3-c-lib/src/qwen3_inference_internal.c:195-248 | the generation loop keeps the ids it started with, adds at most `max_new_tokens` ids, never passes `max_seq_len`, never keeps the end token or a negative id, and keeps the text short of the buffer's last byte |
| InferenceInternal.GenerationBounds | qwen3-c-lib/src/qwen3_inference_internal.c:170-250 | generation runs exactly when a model, a transformer, a tokenizer and a prompt are present and the prompt encodes to 1 to `max_seq_len − 1` ids; a run that starts keeps the prompt's ids in front and obeys the loop's bounds |
| InferenceInternal.FirstStepStops | qwen3-c-lib/src/qwen3_inference_internal.c:216-230 | a negative first sample fails the generation; an end token as the first sample ends it successfully with no id and no text added |
| InferenceInternal.Chunk | qwen3-c-lib/src/qwen3_inference_internal.c:275 | `fgets` takes at most the buffer's room, and something whenever input remains |
| InferenceInternal.ChunkIsPrefix | qwen3-c-lib/src/qwen3_inference_internal.c:275 | `fgets` reads a prefix of the input with no newline before its last byte |
| InferenceInternal.ChunkOfLine | qwen3-c-lib/src/qwen3_inference_internal.c:275 | a line shorter than the buffer is read up to and including its newline |
| InferenceInternal.LineOf | qwen3-c-lib/src/qwen3_inference_internal.c:280 | cutting at the newline never lengthens the chunk |
| InferenceInternal.LineOfIsClean | qwen3-c-lib/src/qwen3_inference_internal.c:280 | the cut line is a prefix of the chunk with neither a newline nor a zero byte |
| InferenceInternal.LineOfLine | qwen3-c-lib/src/qwen3_inference_internal.c:280 | cutting a clean line followed by its newline gives the line back |
| InferenceInternal.Truncate | qwen3-c-lib/src/qwen3_inference_internal.c:292-300 | `snprintf` keeps a prefix of at most the room, and all of a text that fits |
| InferenceInternal.ChatTemplate | qwen3-c-lib/src/qwen3_inference_internal.c:292-300 | the untruncated prompt ends with the user line followed by "<|end|>", a newline, "<|assistant|>" and a newline; without a system prompt it is the user tag, the line and that ending, 31 bytes more than the line |
| InferenceInternal.FormatPrompt | qwen3-c-lib/src/qwen3_inference_internal.c:292-300 | the formatted prompt is a prefix of the chat template (with or without the system turn) and shorter than the 3072-byte buffer |
| InferenceInternal.UserPromptUncut | qwen3-c-lib/src/qwen3_inference_internal.c:297-300 | a user line that fits the 2048-byte input buffer appears whole, between the user tag and the assistant tag |
| InferenceInternal.ChatFromStep | qwen3-c-lib/src/qwen3_inference_internal.c:275-289 | one read of the chat loop: the chunk stays inside the input, and the lines answered from here are those of the rest after skipping an empty line or stopping at "quit"/"exit" |
| InferenceInternal.ChatFromKeeps | qwen3-c-lib/src/qwen3_inference_internal.c:271-315 | the lines answered earlier stay in front of the lines answered from here on |
| InferenceInternal.ChatLine | qwen3-c-lib/src/qwen3_inference_internal.c:275-308 | a clean, non-empty line other than "quit"/"exit" is answered and reading goes on behind its newline |
| InferenceInternal.ChatSkipsAndStops | qwen3-c-lib/src/qwen3_inference_internal.c:283-289 | an empty line is skipped; "quit" or "exit" ends the chat with nothing more answered |
| InferenceInternal.StrEnd | qwen3-c-lib/src/qwen3_inference_internal.c:240 | where `strcat` starts writing: the first zero byte at or after the given offset, every byte before it non-zero |
| InferenceInternal.StrcatAsWritten | qwen3-c-lib/src/qwen3_inference_internal.c:240 | C `strcat` onto `output + output_pos`: defined exactly when the text already there, the new piece and its terminator fit, and then everything before the old terminator is kept |
| InferenceInternal.StrcatAtTerminator | qwen3-c-lib/src/qwen3_inference_internal.c:240 | when the buffer's text ends exactly at `output_pos`, `strcat` writes the piece there, terminates it, and keeps the rest, as `Strcat` does |
| InferenceInternal.ReusedResponseOverflows | qwen3-c-lib/src/qwen3_inference_internal.c:236-243 | with an earlier answer still in the buffer, a piece that passes the bound check, which counts only the new answer's bytes, makes `strcat` write past the 4096-byte response buffer |
| InferenceInternal.ReusedResponseExample | qwen3-c-lib/src/qwen3_inference_internal.c:269 | a first answer of 4000 bytes followed by a 200-byte piece overruns the response buffer |
| InferenceInternal.Strcat | qwen3-c-lib/src/qwen3_inference_internal.c:240 | `strcat` writes the text at the terminator, terminates it, and leaves the rest of the buffer as it was |
| InferenceInternal.Emit | qwen3-c-lib/src/qwen3_inference_internal.c:236-243 | on a terminated output text, one token leaves the text `Appended` describes, terminated, within the buffer |
| InferenceInternal.RunSteps | qwen3-c-lib/src/qwen3_inference_internal.c:195-248 | starting from an empty output, the loop over the token buffer ends with the outcome, the final seed, the buffer's ids and the terminated output text of the generation loop's definition |
| InferenceInternal.PushId | qwen3-c-lib/src/qwen3_inference_internal.c:233 | the sampled id is stored right after the ids already in the buffer, which stay |
| InferenceInternal.ZeroIds | qwen3-c-lib/src/qwen3_inference_internal.c:73-74 | a new zeroed token buffer of the given length |
| InferenceInternal.ZeroBytes | qwen3-c-lib/src/qwen3_inference_internal.c:75-76 | a new zeroed output buffer of the given length |
| InferenceInternal.CopyIds | qwen3-c-lib/src/qwen3_inference_internal.c:190 | `memcpy` puts the prompt's ids at the front of the token buffer |
| InferenceInternal.Inference.constructor | qwen3-c-lib/src/qwen3_inference_internal.c:51 | the zeroed structure: no tokenizer, model or transformer, empty buffers |
| InferenceInternal.Inference.Init | qwen3-c-lib/src/qwen3_inference_internal.c:46-84 | the configuration is copied; −1 exactly for a zero vocabulary size, hidden size or sequence length (and nothing else is set); otherwise 0, the sampler takes the configured values and the seed (the clock's seconds when none is given), and zeroed buffers of `max_seq_len` ids and `max_seq_len · 32` bytes are allocated |
| InferenceInternal.Inference.SetParameters | qwen3-c-lib/src/qwen3_inference_internal.c:344-352 | the sampler is replaced by the four values and nothing else changes |
| InferenceInternal.Inference.GenerateTokens | qwen3-c-lib/src/qwen3_inference_internal.c:170-251 | returns the output length on success and −1 otherwise, as the generation definition says; when nothing runs, no buffer and no seed change; when it runs, the token buffer starts with the definition's ids, the output buffer with its text and a terminator, the sampler keeps the final seed, and nothing else changes. The output is emptied before the loop, the corrected behaviour (see Findings) |
| InferenceInternal.Inference.Generate | qwen3-c-lib/src/qwen3_inference_internal.c:323-339 | −1 for an empty output buffer, with no seed or token change; otherwise exactly the result and the new token buffer, output text and sampler seed of generating with the configured token budget; nothing else changes |
| InferenceInternal.Inference.ChatTurn | qwen3-c-lib/src/qwen3_inference_internal.c:271-315 | one pass of the chat loop moves forward through the input, stops exactly where the definition stops and answers exactly the line it answers, with the prompt formatted by the template; a skipped or final line changes nothing; an answered line leaves the generation's ids in the token buffer, its text in the loop's response buffer and its seed in the sampler, whose other settings stay |
| InferenceInternal.Inference.Chat | qwen3-c-lib/src/qwen3_inference_internal.c:256-318 | always returns 0 and answers exactly the lines of the input the chat definition picks, through one response buffer for the whole loop; only the sampler's seed and the token buffer's contents change, and nothing at all when no line is answered |
| Quantization.BitsPerElement | qwen3-inference/src/quantization.rs:23-30 | 4, 8, 16 or 32 bits, and fewer than 16 exactly for the grouped (dynamic) levels |
| Quantization.GroupSize | qwen3-inference/src/quantization.rs:33-39 | a group size exactly for the grouped levels, and then the level's own |
| Quantization.MemoryUsage | qwen3-inference/src/quantization.rs:42-55 | the bytes for `elements` values: their bit width per element divided by 8 (rounded down), plus four bytes (one `f32` scale) per complete group for the grouped levels |
| Quantization.MemoryUsageOrdered | qwen3-inference/src/quantization.rs:42-55 | with groups of at least four the levels are ordered int4 ≤ int8 ≤ fp16 ≤ fp32 in cost, int4 strictly below int8 once there is an element, int8 strictly below fp16 for groups over four |
| Quantization.MemoryUsageAtThousand | qwen3-inference/tests/integration_tests.rs:18-22 | for 1000 elements int4 (groups of 32) < int8 (groups of 64) < fp16 < fp32; a million fp16 and fp32 elements take 2 and 4 million bytes |
| Quantization.DigitsAreLower | qwen3-inference/src/quantization.rs:81 | lower-casing leaves decimal digits alone |
| Quantization.QuantizationToString | qwen3-inference/src/quantization.rs:66-75 | the printed name is lower case; a grouped level prints as a seven-letter prefix followed by its group size in decimal, the others as four letters |
| Quantization.ParseQuantization | qwen3-inference/src/quantization.rs:77-107 | an accepted text lower-cases to the printed name of a 16- or 32-bit level, or to a grouped level's prefix followed by a `usize` that is its group size |
| Quantization.Int4RoundTrip | qwen3-inference/src/quantization.rs:66-102 | "int4-gs" and a group size in `usize` range parse back to the same level |
| Quantization.Int8RoundTrip | qwen3-inference/src/quantization.rs:66-96 | "int8-gs" and a group size in `usize` range parse back to the same level |
| Quantization.QuantizationRoundTrip | qwen3-inference/src/quantization.rs:66-107 | every level whose group size fits `usize` prints to a text that parses back to it |
| Quantization.ParseQuantizationAccepts | qwen3-inference/src/quantization.rs:80-106 | after lower-casing, exactly "fp32", "fp16", and "int8-gs"/"int4-gs" followed by a valid `usize` are accepted |
| Quantization.ParseRejectsBadGroupSize | qwen3-inference/src/quantization.rs:98-102 | a bad group size after "int4-gs" is refused with "Invalid group size: " and the rest of the text |
| Quantization.OptimalQuantization | qwen3-inference/src/quantization.rs:168-177 | every target's default has a usable group size of 32, 64 or 128 when grouped |
| Quantization.MaxMemoryMb | qwen3-inference/src/quantization.rs:180-189 | every target's budget lies between 2048 and 32768 MB |
| Quantization.OptimalQuantizationFitsBudget | qwen3-inference/src/quantization.rs:168-189 | targets with a 2048 MB budget default to int4, and exactly the 32768 MB target defaults to 16-bit floats |
| Quantization.CpuTargetToString | qwen3-inference/src/quantization.rs:192-203 | each target prints as a non-empty lower-case name |
| Quantization.ParseCpuTarget | qwen3-inference/src/quantization.rs:205-219 | an accepted text lower-cases to the target's name or is the alias of the i9-14900HX; a refused one fails with "Invalid CPU target: " and the text as given |
| Quantization.CpuTargetRoundTrip | qwen3-inference/src/quantization.rs:192-219 | each target's name parses back to the target, in any ASCII letter case |
| Quantization.CpuTargetNamesLower | qwen3-inference/src/quantization.rs:195-200 | the printed names are already lower case |
| Quantization.ParseCpuTargetAccepts | qwen3-inference/src/quantization.rs:208-218 | exactly the six names and the alias "i9-14900hx" are accepted, and no two targets print alike |
| Quantization.LimitsForCpuTarget | qwen3-inference/src/quantization.rs:241-248 | the target's memory budget, with the default context length 4096 and batch size 1 |
| Quantization.ValidateMemoryUsage | qwen3-inference/src/quantization.rs:251-253 | a usage is admitted exactly when it is at most the budget |
| Quantization.TargetLimitsAdmit | qwen3-inference/src/quantization.rs:251-253 | a target's limits admit exactly the usages up to its budget, so every usage up to 2048 MB is admitted everywhere |
| Quantization.OpenAiConfig | qwen3-inference/src/quantization.rs:269-278 | the provider "openai" with the given key and model, no base URL, 30 s timeout, 2048 tokens |
| Quantization.AnthropicConfig | qwen3-inference/src/quantization.rs:281-290 | the same settings as the OpenAI configuration, for the provider "anthropic" |
| RateLimit.Elapsed | qwen3-api/src/middleware/rate_limit.rs:50 | the time since `t`, saturating at zero for a reading after `now` |
| RateLimit.Recent | qwen3-api/src/middleware/rate_limit.rs:50 | the retained times are exactly the logged ones less than a minute old, in order |
| RateLimit.RecentAppend | qwen3-api/src/middleware/rate_limit.rs:50 | pruning a concatenated log prunes each part |
| RateLimit.RecentLater | qwen3-api/src/middleware/rate_limit.rs:50 | pruning at an earlier time and again later is pruning once, later |
| RateLimit.Step | qwen3-api/src/middleware/rate_limit.rs:45-59 | a request is admitted exactly when fewer than the limit remain after pruning; the log becomes the pruned log, with `now` appended when admitted |
| RateLimit.Admitted | qwen3-api/src/middleware/rate_limit.rs:39-60 | every admitted time is one of the request times |
| RateLimit.LogIsRecentAdmitted | qwen3-api/src/middleware/rate_limit.rs:39-60 | with a clock that never runs backwards, the stored log is exactly the admitted requests of the last minute |
| RateLimit.LogWithinLimit | qwen3-api/src/middleware/rate_limit.rs:53-58 | the log never holds more than the limit |
| RateLimit.AdmitsAtMostLimitPerWindow | qwen3-api/src/middleware/rate_limit.rs:39-60 | no client has more than the limit admitted within any minute ending at a request |
| RateLimit.ZeroLimitAdmitsNothing | qwen3-api/src/middleware/rate_limit.rs:53-55 | a limit of zero rejects every request |
| RateLimit.RateLimitState.constructor | qwen3-api/src/middleware/rate_limit.rs:32-37 | no client logged yet, with the given limit |
| RateLimit.RateLimitState.CheckRateLimit | qwen3-api/src/middleware/rate_limit.rs:39-60 | the client's log takes one `Step` and no other client's changes; rejected requests answer 429 |
| RateLimit.ExtractClientIp | qwen3-api/src/middleware/rate_limit.rs:77-93 | X-Forwarded-For's first comma-separated element, trimmed, comes first; then X-Real-IP as given; none exactly when neither header is text |
| RateLimit.ClientKey | qwen3-api/src/middleware/rate_limit.rs:70 | requests without either header are all counted under "unknown" |
| RateLimit.ForwardedHeaderChoosesKey | qwen3-api/src/middleware/rate_limit.rs:70-82 | a single trimmed address in X-Forwarded-For is the key, whatever X-Real-IP says |
| RateLimit.RateLimitMiddleware | qwen3-api/src/middleware/rate_limit.rs:63-75 | the request reaches the next handler exactly when its client's check admits it, otherwise 429 |
| Registry.JoinPath | qwen3-api/src/state.rs:51 | joining an absolute name gives the name itself; any other name is appended to the directory, with one separator added unless the directory is empty or already ends in one |
| Registry.ModelPathInsideDirectory | qwen3-api/src/state.rs:51 | a relative id names "<directory>/<id>.bin" |
| Registry.ModelPathAbsoluteId | qwen3-api/src/state.rs:51 | an id starting with '/' escapes the models directory: the path is the id plus ".bin" |
| Registry.ModelPathEndsWithFile | qwen3-api/src/state.rs:51 | whatever the directory, the checkpoint path ends in the id followed by ".bin" |
| Registry.ErrorText | qwen3-api/src/state.rs:54-55 | a missing file reads "Model file not found: " and the path in double quotes; an unknown id reads "Model not found: " and the id; an engine failure keeps its message |
| Registry.Scan | qwen3-api/src/state.rs:122-130 | the scan finds a candidate exactly when some entry was used before `now`; the candidate is listed, its time is the one returned, and no listed entry is older |
| Registry.ScanKeepsFirstOldest | qwen3-api/src/state.rs:125-130 | every entry met before the candidate is strictly newer: among equally old entries the first one met is kept |
| Registry.EnforcedEvictsOldest | qwen3-api/src/state.rs:119-138 | within the limit, or with nothing older than `now`, nothing changes; otherwise exactly one entry goes, one used no later than any other |
| Registry.ScanOverKeys | qwen3-api/src/state.rs:119-138 | over an enumeration of the registry, a candidate is found exactly when some entry is older than `now`, and it is the least recently used |
| Registry.EvictsEarliestLoaded | qwen3-api/src/state.rs:68-138 | since nothing updates `last_used` after loading, the evicted model is the earliest loaded: eviction is first-in first-out |
| Registry.LoadKeepsWithinOneOverLimit | qwen3-api/src/handlers/models.rs:40-70 | eviction before insertion keeps the registry at most one over the limit, and a new model loaded at the limit does put it one over |
| Registry.NewEntry | qwen3-api/src/state.rs:68-76 | a fresh entry: last used and loaded now, no inference yet, both counters 0 |
| Registry.LoadInfo | qwen3-api/src/state.rs:59-66 | the description of a loaded model: its id, path and file size, quantization "int8" unless one is given, and the configured context window |
| Registry.AppState.constructor | qwen3-api/src/state.rs:38-44 | an empty registry with no request in flight and the given settings |
| Registry.AppState.Register | qwen3-api/src/state.rs:78 | the entry is filed under its own id, replacing any entry with that id, and every other entry stays |
| Registry.AppState.LoadModel | qwen3-api/src/state.rs:46-81 | a missing checkpoint fails first, then a failing engine, both leaving the registry alone; on success the id's entry alone is (re)placed by a fresh entry with a new engine, and the id is returned |
| Registry.AppState.UnloadModel | qwen3-api/src/state.rs:83-89 | the id is gone afterwards; the call succeeds exactly when it was present, and fails with "Model not found" otherwise |
| Registry.AppState.GetModel | qwen3-api/src/state.rs:91-109 | a copy of the entry exactly when the id is registered |
| Registry.AppState.ListModels | qwen3-api/src/state.rs:111-117 | one description per registered model, in the iteration order |
| Registry.AppState.EnforceModelLimits | qwen3-api/src/state.rs:119-138 | never fails; the registry becomes the enforced one |
| Registry.AppState.RecordInference | qwen3-api/src/handlers/chat.rs:110-120 | for a still-registered model, one more request, the completion tokens added (both wrapping at 2^64) and the inference time set; nothing else changes |
| Registry.LoadReply | qwen3-api/src/handlers/models.rs:55-69 | success exactly when the load succeeded, with the loaded id and "Model loaded successfully"; otherwise the requested id and "Failed to load model: " with the error |
| Registry.UnloadReply | qwen3-api/src/handlers/models.rs:76-85 | success exactly when the unload succeeded, with the matching message |
| Registry.HandleLoadModel | qwen3-api/src/handlers/models.rs:40-70 | the limit is enforced first and the load's outcome reported; on success the enforced registry gains the model, on failure it stays as enforced |
| Registry.HandleUnloadModel | qwen3-api/src/handlers/models.rs:72-86 | the id is removed; success exactly when it was there |
| Registry.HandleListModels | qwen3-api/src/handlers/models.rs:33-38 | the total equals the number of descriptions and of registered models, and every registered model is described |
| Tokenizer.ReadRecords | qwen3-c-lib/src/tokenizer.c:79-108 | the record loop takes at most `room` records (the free table entries), and every record it takes is at most 1024 bytes long |
| Tokenizer.VocabOf | qwen3-c-lib/src/tokenizer.c:69-107 | the vocabulary table always has 32000 entries, whatever the file holds |
| Tokenizer.ScoresOf | qwen3-c-lib/src/tokenizer.c:69-107 | the score table always has 32000 entries |
| Tokenizer.Loaded | qwen3-c-lib/src/tokenizer.c:51-67 | loading fails exactly when the 12-byte header is cut short; a loaded tokenizer is well formed, has 32000 entries, and its padding and unknown ids equal its begin id |
| Tokenizer.RecordBytes | qwen3-c-lib/src/tokenizer.c:84-99 | a stored record takes 8 header bytes (score, length) plus its text |
| Tokenizer.RecordAt | qwen3-c-lib/src/tokenizer.c:84-103 | a record written at an offset reads back as the same score, length and text, and the next record starts right after its text |
| Tokenizer.ReadRecordsStep | qwen3-c-lib/src/tokenizer.c:80-108 | one pass of the loop: a complete record of at most 1024 bytes is taken, and reading goes on behind it with one entry fewer |
| Tokenizer.StoredStep | qwen3-c-lib/src/tokenizer.c:84-103 | a record that reads back at an offset, followed by stored records, makes the whole sequence stored |
| Tokenizer.RecordsStored | qwen3-c-lib/src/tokenizer.c:84-103 | records written back to back, each at most 1024 bytes, read back field by field |
| Tokenizer.ReadRecordsFrom | qwen3-c-lib/src/tokenizer.c:79-108 | the loop reads stored records back exactly, when the table has room for all of them |
| Tokenizer.LoadRoundTrip | qwen3-c-lib/src/tokenizer.c:34-119 | loading a written file (header plus at most 32000 records of at most 1024 bytes) gives back its ids and records: the texts and scores in order, empty entries behind them, and padding and unknown ids equal to the begin id |
| Tokenizer.FilledStep | qwen3-c-lib/src/tokenizer.c:105-107 | storing a record at the next free entry keeps the tables holding exactly the records read so far |
| Tokenizer.Store | qwen3-c-lib/src/tokenizer.c:105-107 | the record's text and score go into the next free entry of the two tables, and the tables then hold the records read so far plus this one |
| Tokenizer.TablesOf | qwen3-c-lib/src/tokenizer.c:69-107 | tables filled record by record are exactly the tables the load describes |
| Tokenizer.ReadOneMore | qwen3-c-lib/src/tokenizer.c:80-108 | moving the next record from the part still to read to the part read keeps the whole sequence of records |
| Tokenizer.ReadRecord | qwen3-c-lib/src/tokenizer.c:84-103 | reads score, length and text at an offset; on success the record is the next one the load takes and reading resumes behind it; a short read or a length over 1024 ends the records there |
| Tokenizer.Load | qwen3-c-lib/src/tokenizer.c:34-119 | the tokenizer built from the file's bytes is the one `Loaded` describes |
| Tokenizer.WordPrefix | qwen3-c-lib/src/tokenizer.c:185 | the front of the text up to the first space, tab or newline: it holds no separator and is followed by one or by the end |
| Tokenizer.SplitWords | qwen3-c-lib/src/tokenizer.c:185-189 | `strtok` yields non-empty words without separators |
| Tokenizer.WordPrefixBeforeDelimiter | qwen3-c-lib/src/tokenizer.c:185 | a separator ends the word in front of it |
| Tokenizer.SplitWordsAppend | qwen3-c-lib/src/tokenizer.c:185-189 | splitting around a separator gives the words of each side, in order |
| Tokenizer.SplitOneWord | qwen3-c-lib/src/tokenizer.c:185-189 | a non-empty run without separators is exactly one word |
| Tokenizer.SplitJoinWords | qwen3-c-lib/src/tokenizer.c:185-189 | splitting words joined by one separator gives back the words, when they are non-empty and free of separators |
| Tokenizer.WrapAddWrap | qwen3-c-lib/src/tokenizer.c:213 | reducing the hash modulo 2^32 before or after adding a byte gives the same `unsigned int` |
| Tokenizer.Djb2 | qwen3-c-lib/src/tokenizer.c:211-214 | reducing after every byte gives the same `unsigned int` as computing h·33 + byte from 5381 exactly and reducing once at the end |
| Tokenizer.HashWord | qwen3-c-lib/src/tokenizer.c:211-214 | the shift-and-add loop computes the djb2 hash (h·33 + byte from 5381) in 32-bit unsigned arithmetic |
| Tokenizer.WordId | qwen3-c-lib/src/tokenizer.c:215 | a word's id is below the vocabulary size |
| Tokenizer.WordIds | qwen3-c-lib/src/tokenizer.c:209-218 | one id per word, in order, each the word's hash modulo the vocabulary size |
| Tokenizer.Encode | qwen3-c-lib/src/tokenizer.c:171-222 | no text gives no tokens; otherwise the count is the number of words and the ids are the words' ids in order, each below the vocabulary size |
| Tokenizer.Decode | qwen3-c-lib/src/tokenizer.c:227-233 | an id inside the table gives its entry; a negative id or one at or past the vocabulary size gives nothing |
| Tokenizer.CString | qwen3-c-lib/src/tokenizer.c:246-260 | what `strlen` and `strcat` see of an entry: the prefix before its first zero byte |
| Tokenizer.JoinedFits | qwen3-c-lib/src/tokenizer.c:244-265 | the concatenated text never outgrows the size the first loop counted, so with the terminator it fits the buffer |
| Tokenizer.JoinedSkipsUnknown | qwen3-c-lib/src/tokenizer.c:245-265 | ids outside the table contribute neither text, nor a space, nor buffer size |
| Tokenizer.DecodeSequence | qwen3-c-lib/src/tokenizer.c:238-268 | no tokens give nothing; otherwise the buffer size is the counted size plus one, the text is the table texts joined with a space after each but the last token, ids outside the table skipped, and it fits the buffer |
| Tokenizer.SpecialToken | qwen3-c-lib/src/tokenizer.c:273-289 | "bos", "eos", "pad", "unk" give the matching id as a signed `int`; any other name gives −1 |
| Tokenizer.LoadedSpecialTokens | qwen3-c-lib/src/tokenizer.c:63-67 | after loading, "pad" and "unk" answer the begin id and "eos" the third header word |
| Transformer.ConfigInit | qwen3-c-lib/src/transformer.c:22-53 | every field is written as given (head size the rounded-down quotient, window off) and returned even on failure; 0 exactly when the hidden size is a non-zero multiple of the head count and the head count a multiple of the key/value head count, and then the heads exactly tile the hidden width |
| Transformer.HeadDim | qwen3-c-lib/src/transformer.c:36 | the quotient rounded down: the heads never overfill the hidden width and leave less than one head spare; it is 0 exactly when there are more heads than hidden units |
| Transformer.ConfigInitExamples | qwen3-c-lib/src/transformer.c:22-53 | the 0.6B shape (768 hidden, 12 heads) is accepted with head size 64; 13 heads (not dividing 768) and 5 key/value heads (not dividing 12) are refused |
| Transformer.AcceptedConfigGroupsHeads | qwen3-c-lib/src/transformer.c:44-50 | an accepted configuration has key/value heads, and every query head maps to one of them |
| Transformer.OwnedExtend | qwen3-c-lib/src/transformer.c:280-286 | a fresh, separate layer cache of the right shape extends the set of owned layer caches |
| Transformer.LayerInit | qwen3-c-lib/src/transformer.c:103-133 | the layer's cache of 32 rows is refused exactly for a zero key/value head count or head size; otherwise it is live, empty and shaped by the configuration |
| Transformer.Transformer.constructor | qwen3-c-lib/src/transformer.c:270 | the zeroed transformer: no layers |
| Transformer.Transformer.Init | qwen3-c-lib/src/transformer.c:265-302 | −1 exactly for zero layers (nothing changed) or a layer whose cache is refused (no layers kept); otherwise every layer has an empty cache and the configuration and layer count are recorded |
| Transformer.Transformer.InitLayers | qwen3-c-lib/src/transformer.c:280-287 | the allocation loop fails exactly when the key/value head count or head size is zero, keeping no layers; otherwise every layer gets its own empty 32-row cache, disjoint from the others |
| Transformer.Transformer.Free | qwen3-c-lib/src/transformer.c:307-323 | the layers are released; configuration and count stay |
| Transformer.EmbeddingRowsFitIff | qwen3-c-lib/src/transformer.c:291-294 | rows of a positive width fit the 32-row work buffers exactly when there are at most 32 of them |
| Transformer.ForwardGuardOverruns | qwen3-c-lib/src/transformer.c:335-358 | with a position limit above 32 the length check as written accepts 33 tokens, whose embedding rows do not fit the 32-row buffer |
| Transformer.ForwardGuardFits | qwen3-c-lib/src/transformer.c:335-358 | the corrected check accepts exactly the sequences the check as written accepts and whose embedding rows fit the buffers |
| Transformer.Transformer.LayerForward | qwen3-c-lib/src/transformer.c:154-260 | for a sequence of at most 32 tokens, one layer's attention step appends exactly one row to its cache, and fails with nothing changed exactly when the cache is full |
| Transformer.Transformer.Forward | qwen3-c-lib/src/transformer.c:328-421 | −1 exactly for a sequence beyond the position limit or beyond the 32 rows the work buffers hold (the corrected check), or for full caches, with the caches unchanged; otherwise every layer gains one row; the caches never exceed 32 rows |
| Transformer.Transformer.ForwardLayer | qwen3-c-lib/src/transformer.c:381-392 | one layer's pass inside the loop, for a sequence of at most 32 tokens: only that layer's cache changes, gaining one row unless it is full, and a full cache returns −1 |

## Left out

Preconditions and weaker contracts:

- Attention.SdpaHeads: requires `numKvHeads > 0`; the C code computes `num_heads % num_kv_heads` and divides by zero otherwise.
- Attention.Mha: requires `numKvHeads > 0` for the same division.
- Transformer.ConfigInit: requires `numAttentionHeads > 0`, and `numKeyValueHeads > 0` whenever the division check is reached, because `qwen3_transformer_config_init` divides before it validates.
- Transformer.Transformer.LayerForward: requires the fixed 12-head, 64-dimension layer shape (hidden size 768) hard-coded in `transformer.c`, a sequence of 1 to 32 tokens (the 32-row work buffers), and, while the cache has room, more tokens than cached rows, because `qwen3_attention_mha` reads one query row per cached row; other inputs index past the buffers in C. The configuration's own hidden size is not tied to the hard-coded one.
- Transformer.Transformer.Forward: requires the same fixed shape and, when the corrected length check passes, at least one token and, while the caches have room, more tokens than cached rows, as for `LayerForward`; the C code reads out of bounds otherwise. The length check itself is the corrected one (see Findings).
- Transformer.Transformer.ForwardLayer: requires the same shape, token count and query-row condition as `LayerForward`.
- Tokenizer.DecodeSequence: requires every in-range id to have a vocabulary entry (`EntriesPresent`); `strlen` of a missing entry is undefined in C.
- Tokenizer.Encode: requires a vocabulary size above zero, since the hash is taken modulo it; a loaded tokenizer always has 32000 entries.
- Tokenizer.WordIds: requires a vocabulary size above zero, as for `Encode`.
- InferenceInternal.Inference.GenerateTokens: requires an output buffer of at least one byte; `output_size - 1` underflows on an empty buffer.
- InferenceInternal.Emit: requires the output to hold the text generated so far followed by a terminating zero, so that `strcat` appends right after it; `GenerateTokens` establishes this (see Findings).
- InferenceInternal.RunSteps: requires the output to start as the empty string, as for `Emit`. The logits offset used when sampling is not modelled, because the sampler is an oracle.
- InferenceInternal.Inference.GenerateTokens: empties the output (writes a zero at its start) before generating; the C function does not, and appends after whatever the caller's buffer already holds (see Findings).
- InferenceInternal.Inference.ChatTurn: uses one response buffer for every turn, as the C chat loop does; each turn starts by emptying it, the corrected behaviour of `GenerateTokens`.
- Registry.ErrorText: the path is shown between double quotes as Rust's `Debug` format prints it, but the escaping of quotes, backslashes and control characters inside the path is not modelled.
- ExtendedConfig.EstimateMemoryUsage: requires a non-zero group size (`UsableGroupSize`); a zero group size panics on division in Rust.
- ExtendedConfig.Validate: requires a non-zero group size whenever the estimate is reached, for the same panic.
- ExtendedTransformer.CalculateQuantizationSavings: requires a non-zero group size, for the same panic.
- ExtendedTransformer.MemoryStatsOf: requires a non-zero group size, for the same panic.
- ExtendedTransformer.ExtendedTransformer.Stats: requires a non-zero group size, for the same panic.
- ExtendedTransformer.ExtendedTransformer.UpdateConfig: requires a non-zero group size in the updated configuration whenever its path exists, for the same panic.
- ExtendedTransformer.BuildParts: requires `BuildDefined` (a non-zero group size when validation reaches the estimate).
- ExtendedTransformer.Build: requires `BuildDefined`, as for `BuildParts`.
- Rust `usize` overflow is not modelled: the Rust sizes and estimates are unbounded naturals. The same holds for the C `size_t` memory estimate in `Attention.Optimize`. The C `uint32_t` products are modelled with wrap-around.

Operations not modelled:

- The C numeric kernels: rotary embeddings, attention weights and the softmax-weighted sum in `attention.c`, `rms_norm` and `swiglu` in `transformer.c`, and the benchmark functions. They are floating point and do not decide control flow.
- `qwen3_attention_gqa` only calls `qwen3_attention_mha`, so it is covered by `Attention.Mha`.
- The C cleanup and accessor functions: the `free` functions of the tokenizer, layer, model and inference context, `get_config` and `read_float`. They release memory or return a field.
- `load_model` in `qwen3_inference_internal.c` chains model loading, tokenizer construction, configuration and transformer initialisation; each step is modelled on its own, but the chain is not.
- Memory allocation (`malloc`, `calloc`) is assumed to succeed throughout the C code, so a contract stating that a function returns −1 exactly for certain inputs leaves out the allocation failures that also return −1.
- Arena allocation in `model.c` is assumed to succeed, and the arena teardown on failure (`model.c` lines 366-373) is not modelled. A negative file size from `ftell` is not represented. Seeking past the end of a file is taken to succeed, as it does on regular files.
- CPU probing: `CpuTarget::detect`, `CpuInfo::detect` with its x86_64 and aarch64 variants, and the CPUID cache probe read the machine; their parsed outcomes are inputs. `CpuProbe.GetBrand` takes the CPUID brand string and the /proc/cpuinfo text as inputs.
- Reading and writing configuration files (`from_file`, `save_to_file`, `save_config`, `from_config_file`) and the trivial accessors of the extended transformer.
- Floating-point values are opaque bit patterns, so `utilization_ratio`, `compression_ratio` and the size-in-MB formatting are not modelled. Lower-casing is ASCII-only.
- The memory mapper's internals are not modelled: it is taken to fail without moving when fewer bytes remain than requested.
- Registry.AppState.LoadModel reads the clock once: the two `Instant::now()` calls that set the last-used and loaded times are one `now` parameter, so the two times are equal.
- Concurrency: locks and atomics are modelled as sequential state changes. Map iteration order is an input enumeration of the keys.
- The CLI's argument parsing, printing and JSON output. A directory that cannot be read lists no models.
- The generation routines `run_inference` hands over to (`generate` and `chat`). The errors from loading the transformer and tokenizer are a `setup` parameter.
- The cloud providers and the web crate.

## Findings

| source | as written | input that shows it | evidently intended | confidence | as-written member | corrected member |
|---|---|---|---|---|---|---|
| qwen3-inference/src/configuration.rs:121-127 | the header block is 36 bytes, so after `seq_len` no four bytes remain and rope_theta is always 10000.0 | a header storing rope_theta 1000000.0 (bits 0x49742400) reads back as 10000.0 | read rope_theta from bytes 36-39 of a 40-byte block | not executed | CheckpointHeader.RopeThetaIgnored | CheckpointHeader.IntendedRoundTrip |
| qwen3-c-lib/src/model.c:346-347 | the embedding element count `vocab_size * dim` is a 32-bit product | vocab_size 262144 and dim 16384 pass validation, but the product wraps to 0 and an empty table is read | count the elements without wrap-around | not executed | CModelLoader.EmbeddingCountWraps | CModelLoader.EmbeddingIntendedCoversTable |
| qwen3-api/src/handlers/chat.rs:46-124 | `active_requests` is incremented on entry but decremented only on the success path; every early `?` return skips the decrement | a request for a model that is not loaded leaves the counter one higher | release the counter on every path | not executed | ApiGeneration.ChatHandler | ApiGeneration.ChatHandlerBalanced |
| qwen3-c-lib/src/transformer.c:335 | the forward pass checks the sequence length only against `max_position_embeddings`, while its embedding buffer and the layers' work buffers hold 32 rows (lines 291-294) | a model with a 2048-position limit and a 33-token sequence passes the check, and row 32 of the embeddings is written past the buffer | refuse sequences longer than the 32 rows the buffers hold | not executed | Transformer.ForwardGuardOverruns | Transformer.Transformer.Forward |
| qwen3-c-lib/src/qwen3_inference_internal.c:240, 269 | the chat loop declares one 4096-byte `response` array, never cleared, and `strcat` appends at its first zero byte, not at `output_pos`; the room check uses `output_pos` | a buffer still holding a 4000-byte answer and a 200-byte token piece: the check sees 0 + 200 < 4095 and the append runs past byte 4096 | empty the output before generating, so the text starts at `output_pos` | not executed | InferenceInternal.ReusedResponseOverflows | InferenceInternal.Inference.GenerateTokens |

The corrected definitions stand beside the as-written ones with their
intended properties proved. `Transformer.Transformer.Forward` uses the
corrected length check and `InferenceInternal.Inference.GenerateTokens`
empties its output first. Elsewhere the model follows the code as written,
so `CModelLoader.LoadModel` uses the wrapping count and
`ApiGeneration.GenerateHandler` keeps the same counter leak.
