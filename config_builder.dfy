/**
 * The Rust engine's entry point: the by-value builder of the inference
 * configuration, with its one required field and its defaults, and the
 * mode dispatch of `run_inference`.
 */
module ConfigBuilder {
  import opened Wrappers
  import opened Bytes

  /** A built configuration, every field decided. */
  datatype InferenceConfig = InferenceConfig(
    checkpointPath: string,
    temperature: f32,
    topP: f32,
    ctxLength: Option<nat>,
    mode: string,
    prompt: Option<string>,
    systemPrompt: Option<string>,
    enableThinking: bool,
    seed: u64,
    maxTokens: nat)

  /** The builder: every field still optional. */
  datatype Builder = Builder(
    checkpointPath: Option<string>,
    temperature: Option<f32>,
    topP: Option<f32>,
    ctxLength: Option<nat>,
    mode: Option<string>,
    prompt: Option<string>,
    systemPrompt: Option<string>,
    enableThinking: Option<bool>,
    seed: Option<u64>,
    maxTokens: Option<nat>)

  const DEFAULT_TEMPERATURE: f32 := F32_ONE
  const DEFAULT_TOP_P: f32 := F32_0_9
  const DEFAULT_MODE: string := "chat"
  const DEFAULT_MAX_TOKENS: nat := 50
  const MISSING_CHECKPOINT: string := "checkpoint_path is required"

  /** `InferenceConfig::builder()`: the derived default, nothing set. */
  function NewBuilder(): (b: Builder)
    ensures b.checkpointPath.None? && b.temperature.None? && b.topP.None? && b.ctxLength.None?
    ensures b.mode.None? && b.prompt.None? && b.systemPrompt.None? && b.enableThinking.None?
    ensures b.seed.None? && b.maxTokens.None?
  {
    Builder(None, None, None, None, None, None, None, None, None, None)
  }

  // Each setter replaces its own field, `None` included, and leaves the others as they were.

  function WithCheckpointPath(b: Builder, path: Option<string>): (r: Builder)
    ensures r.checkpointPath == path && r.(checkpointPath := b.checkpointPath) == b
  {
    b.(checkpointPath := path)
  }

  function WithTemperature(b: Builder, temperature: Option<f32>): (r: Builder)
    ensures r.temperature == temperature && r.(temperature := b.temperature) == b
  {
    b.(temperature := temperature)
  }

  function WithTopP(b: Builder, topP: Option<f32>): (r: Builder)
    ensures r.topP == topP && r.(topP := b.topP) == b
  {
    b.(topP := topP)
  }

  function WithCtxLength(b: Builder, ctxLength: Option<nat>): (r: Builder)
    ensures r.ctxLength == ctxLength && r.(ctxLength := b.ctxLength) == b
  {
    b.(ctxLength := ctxLength)
  }

  function WithMode(b: Builder, mode: Option<string>): (r: Builder)
    ensures r.mode == mode && r.(mode := b.mode) == b
  {
    b.(mode := mode)
  }

  function WithPrompt(b: Builder, prompt: Option<string>): (r: Builder)
    ensures r.prompt == prompt && r.(prompt := b.prompt) == b
  {
    b.(prompt := prompt)
  }

  function WithSystemPrompt(b: Builder, systemPrompt: Option<string>): (r: Builder)
    ensures r.systemPrompt == systemPrompt && r.(systemPrompt := b.systemPrompt) == b
  {
    b.(systemPrompt := systemPrompt)
  }

  function WithEnableThinking(b: Builder, enable: Option<bool>): (r: Builder)
    ensures r.enableThinking == enable && r.(enableThinking := b.enableThinking) == b
  {
    b.(enableThinking := enable)
  }

  function WithSeed(b: Builder, seed: Option<u64>): (r: Builder)
    ensures r.seed == seed && r.(seed := b.seed) == b
  {
    b.(seed := seed)
  }

  function WithMaxTokens(b: Builder, maxTokens: Option<nat>): (r: Builder)
    ensures r.maxTokens == maxTokens && r.(maxTokens := b.maxTokens) == b
  {
    b.(maxTokens := maxTokens)
  }

  /**
   * A configuration keeps what the builder set: a field the builder holds
   * appears unchanged, and the fields without a default pass through as
   * they are.
   */
  predicate Keeps(b: Builder, c: InferenceConfig)
  {
    b.checkpointPath == Some(c.checkpointPath) &&
    (b.temperature.Some? ==> c.temperature == b.temperature.value) &&
    (b.topP.Some? ==> c.topP == b.topP.value) &&
    c.ctxLength == b.ctxLength &&
    (b.mode.Some? ==> c.mode == b.mode.value) &&
    c.prompt == b.prompt && c.systemPrompt == b.systemPrompt &&
    (b.enableThinking.Some? ==> c.enableThinking == b.enableThinking.value) &&
    (b.seed.Some? ==> c.seed == b.seed.value) &&
    (b.maxTokens.Some? ==> c.maxTokens == b.maxTokens.value)
  }

  /** The value each unset field takes: 1.0, 0.9, "chat", no thinking, the clock's seconds, 50 tokens. */
  predicate Defaulted(b: Builder, c: InferenceConfig, now: u64)
  {
    (b.temperature.None? ==> c.temperature == DEFAULT_TEMPERATURE) &&
    (b.topP.None? ==> c.topP == DEFAULT_TOP_P) &&
    (b.mode.None? ==> c.mode == DEFAULT_MODE) &&
    (b.enableThinking.None? ==> !c.enableThinking) &&
    (b.seed.None? ==> c.seed == now) &&
    (b.maxTokens.None? ==> c.maxTokens == DEFAULT_MAX_TOKENS)
  }

  /**
   * `build`, with `now` the clock's seconds since the Unix epoch: fails
   * exactly when no checkpoint path was set; otherwise every set field is
   * kept and every unset one takes its default.
   */
  function Build(b: Builder, now: u64): (r: Result<InferenceConfig, string>)
    ensures r.Err? <==> b.checkpointPath.None?
    ensures r.Err? ==> r.error == MISSING_CHECKPOINT
    ensures r.Ok? ==> Keeps(b, r.value) && Defaulted(b, r.value, now)
  {
    if b.checkpointPath.None? then Err(MISSING_CHECKPOINT)
    else
      Ok(InferenceConfig(
        b.checkpointPath.value,
        b.temperature.UnwrapOr(DEFAULT_TEMPERATURE),
        b.topP.UnwrapOr(DEFAULT_TOP_P),
        b.ctxLength,
        b.mode.UnwrapOr(DEFAULT_MODE),
        b.prompt,
        b.systemPrompt,
        b.enableThinking.UnwrapOr(false),
        b.seed.UnwrapOr(now),
        b.maxTokens.UnwrapOr(DEFAULT_MAX_TOKENS)))
  }

  /** `Keeps` and `Defaulted` together leave no freedom: they pin the configuration down. */
  lemma BuildDetermined(b: Builder, c: InferenceConfig, now: u64)
    requires Keeps(b, c) && Defaulted(b, c, now)
    ensures Build(b, now) == Ok(c)
  {
  }

  /** Only a checkpoint path set: every other field takes its default. */
  lemma BuildDefaults(path: string, now: u64)
    ensures Build(WithCheckpointPath(NewBuilder(), Some(path)), now)
      == Ok(InferenceConfig(path, F32_ONE, F32_0_9, None, "chat", None, None, false, now, 50))
  {
  }

  /** Nothing set: building fails with the missing-checkpoint message. */
  lemma BuildNeedsCheckpoint(now: u64)
    ensures Build(NewBuilder(), now) == Err("checkpoint_path is required")
  {
  }

  /** The builder that sets every field of `c` through the setters. */
  function Rebuilder(c: InferenceConfig): (b: Builder)
    ensures b.checkpointPath.Some? && b.seed.Some?
  {
    var b0 := WithCheckpointPath(NewBuilder(), Some(c.checkpointPath));
    var b1 := WithTemperature(b0, Some(c.temperature));
    var b2 := WithTopP(b1, Some(c.topP));
    var b3 := WithCtxLength(b2, c.ctxLength);
    var b4 := WithMode(b3, Some(c.mode));
    var b5 := WithPrompt(b4, c.prompt);
    var b6 := WithSystemPrompt(b5, c.systemPrompt);
    var b7 := WithEnableThinking(b6, Some(c.enableThinking));
    var b8 := WithSeed(b7, Some(c.seed));
    WithMaxTokens(b8, Some(c.maxTokens))
  }

  /** Setting every field of a configuration builds it back, whatever the clock says. */
  lemma BuildRoundTrip(c: InferenceConfig, now: u64)
    ensures Build(Rebuilder(c), now) == Ok(c)
  {
    BuildDetermined(Rebuilder(c), c, now);
  }

  /** An explicit seed makes the build independent of the clock. */
  lemma SeededBuildIgnoresClock(b: Builder, now1: u64, now2: u64)
    requires b.seed.Some?
    ensures Build(b, now1) == Build(b, now2)
  {
  }

  /** The generation routine `run_inference` hands over to, with the arguments it passes. */
  datatype Run =
    | Generate(prompt: Option<string>, maxTokens: Option<nat>)
    | Chat(prompt: Option<string>, systemPrompt: Option<string>)

  datatype RunError =
    | SetupFailed(message: string)
    | UnknownMode(config: InferenceConfig)

  /**
   * `run_inference` up to the hand-over. `setup` is the first error of
   * loading the transformer and then the tokenizer from the checkpoint,
   * `None` when both load; a loading error comes before the mode is looked
   * at. Then "generate" runs with the token limit, "chat" with the system
   * prompt, and any other mode fails.
   */
  function RunInference(c: InferenceConfig, setup: Option<string>): (r: Result<Run, RunError>)
    ensures setup.Some? ==> r == Err(SetupFailed(setup.value))
    ensures setup.None? ==> (r.Ok? <==> c.mode == "generate" || c.mode == "chat")
    ensures setup.None? && r.Err? ==> r.error == UnknownMode(c)
    ensures r.Ok? ==> (r.value.Generate? <==> c.mode == "generate") && r.value.prompt == c.prompt
    ensures r.Ok? && r.value.Generate? ==> r.value.maxTokens == Some(c.maxTokens)
    ensures r.Ok? && r.value.Chat? ==> r.value.systemPrompt == c.systemPrompt
  {
    if setup.Some? then Err(SetupFailed(setup.value))
    else if c.mode == "generate" then Ok(Generate(c.prompt, Some(c.maxTokens)))
    else if c.mode == "chat" then Ok(Chat(c.prompt, c.systemPrompt))
    else Err(UnknownMode(c))
  }

  /** A configuration built without a mode chats, with the builder's prompts. */
  lemma DefaultModeChats(b: Builder, now: u64)
    requires b.checkpointPath.Some? && b.mode.None?
    ensures Build(b, now).Ok?
    ensures RunInference(Build(b, now).value, None) == Ok(Chat(b.prompt, b.systemPrompt))
  {
  }
}
