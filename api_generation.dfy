/**
 * The API server's text endpoints (chat and generate): the chat transcript
 * that becomes the prompt, the generation loop that feeds the prompt and
 * then sampled tokens through the transformer, and the handlers that count
 * requests in flight, report token usage and update the model's counters.
 *
 * The tokenizer is given as its encode and decode functions, the
 * transformer-and-sampler pair as a function from the tokens forwarded so
 * far (the i-th at position i) to the next sampled token.
 */
module ApiGeneration {
  import opened Wrappers
  import opened Text
  import Bytes
  import Registry

  datatype ChatMessage = ChatMessage(role: string, content: string)

  /** The heading a role gets in the transcript: the three known roles are capitalised. */
  function RoleLabel(role: string): (r: string)
    ensures role !in {"system", "user", "assistant"} ==> r == role
    ensures |r| == |role|
  {
    if role == "system" then "System"
    else if role == "user" then "User"
    else if role == "assistant" then "Assistant"
    else role
  }

  /** One message of the transcript, followed by a blank line. */
  function MessageText(m: ChatMessage): string
  {
    match m.role
    case "system" => "System: " + m.content + "\n\n"
    case "user" => "User: " + m.content + "\n\n"
    case "assistant" => "Assistant: " + m.content + "\n\n"
    case _ => m.role + ": " + m.content + "\n\n"
  }

  /** Every message reads "<label>: <content>" and a blank line, whatever its role. */
  lemma MessageTextLabelled(m: ChatMessage)
    ensures MessageText(m) == RoleLabel(m.role) + ": " + m.content + "\n\n"
    ensures |MessageText(m)| == |m.role| + |m.content| + 4
  {
  }

  function Transcript(messages: seq<ChatMessage>): string
  {
    if messages == [] then [] else Transcript(messages[..|messages| - 1]) + MessageText(messages[|messages| - 1])
  }

  /** The transcript of two conversations in a row is the two transcripts in a row. */
  lemma {:induction false} TranscriptAppend(a: seq<ChatMessage>, b: seq<ChatMessage>)
    ensures Transcript(a + b) == Transcript(a) + Transcript(b)
    decreases |b|
  {
    if b == [] {
      assert a + b == a;
    } else {
      var front := b[..|b| - 1];
      var m := b[|b| - 1];
      assert (a + b)[..|a + b| - 1] == a + front;
      assert (a + b)[|a + b| - 1] == m;
      var t := MessageText(m);
      TranscriptAppend(a, front);
      assert Transcript(a + b) == Transcript(a + front) + t;
      assert Transcript(b) == Transcript(front) + t;
    }
  }

  /** `format_messages`: the transcript followed by the cue "Assistant:". */
  method FormatMessages(messages: seq<ChatMessage>) returns (prompt: string)
    ensures prompt == Transcript(messages) + "Assistant:"
  {
    prompt := "";
    for i := 0 to |messages|
      invariant prompt == Transcript(messages[..i])
    {
      assert messages[..i + 1][..i] == messages[..i];
      prompt := prompt + MessageText(messages[i]);
    }
    assert messages[..|messages|] == messages;
    prompt := prompt + "Assistant:";
  }

  // -----------------------------------------------------------------------
  // Generation

  datatype Tokenizer = Tokenizer(
    encode: string -> seq<nat>,
    decode: nat -> string,
    bosTokenId: nat,
    eosTokenId: nat)

  /** The response text: the decoded pieces of the tokens, concatenated. */
  function DecodeAll(tok: Tokenizer, tokens: seq<nat>): string
  {
    if tokens == [] then [] else DecodeAll(tok, tokens[..|tokens| - 1]) + tok.decode(tokens[|tokens| - 1])
  }

  /** The number of prompt tokens forwarded before generation: all but the last, at most `seqLen`. */
  function PromptForwards(prompt: seq<nat>, seqLen: nat): (k: nat)
    requires prompt != []
    ensures k < |prompt| && k <= seqLen
    ensures k == |prompt| - 1 || k == seqLen
  {
    if |prompt| - 1 <= seqLen then |prompt| - 1 else seqLen
  }

  /**
   * The generation loop from `fed` (the tokens forwarded so far) and the
   * pending `token`, with `budget` tokens still allowed: forward the pending
   * token, sample, stop at a token in `stop`, otherwise emit it and
   * continue with it pending. Answers the emitted tokens and every token
   * forwarded.
   */
  function Generated(fed: seq<nat>, token: nat, budget: nat, seqLen: nat, stop: set<nat>,
                     sample: seq<nat> -> nat): (r: (seq<nat>, seq<nat>))
    ensures |r.0| <= budget
    ensures forall i :: 0 <= i < |r.0| ==> r.0[i] !in stop
    ensures |fed| <= seqLen ==> |r.1| <= seqLen
    ensures |r.1| == |fed| + |r.0| || |r.1| == |fed| + |r.0| + 1
    ensures r.1 == (fed + [token] + r.0)[..|r.1|]
    ensures |fed| < seqLen && budget > 0 ==> |r.1| > |fed|
    decreases budget
  {
    if budget == 0 || |fed| >= seqLen then ([], fed)
    else
      var forwarded := fed + [token];
      var next := sample(forwarded);
      if next in stop then ([], forwarded)
      else
        var (rest, all) := Generated(forwarded, next, budget - 1, seqLen, stop, sample);
        assert fed + [token] + ([next] + rest) == forwarded + [next] + rest;
        ([next] + rest, all)
  }

  /**
   * Without a stop token, generation runs until the budget or the context
   * is exhausted, whichever comes first.
   */
  lemma {:induction false} GeneratedFillsContext(fed: seq<nat>, token: nat, budget: nat, seqLen: nat,
                                                 stop: set<nat>, sample: seq<nat> -> nat)
    requires |fed| <= seqLen
    requires forall h :: sample(h) !in stop
    ensures |Generated(fed, token, budget, seqLen, stop, sample).0| ==
      if budget <= seqLen - |fed| then budget else seqLen - |fed|
    decreases budget
  {
    if budget > 0 && |fed| < seqLen {
      var forwarded := fed + [token];
      GeneratedFillsContext(forwarded, sample(forwarded), budget - 1, seqLen, stop, sample);
    }
  }

  /** One step of the generation loop, while budget and context remain. */
  lemma GeneratedStep(fed: seq<nat>, token: nat, budget: nat, seqLen: nat, stop: set<nat>, sample: seq<nat> -> nat)
    requires budget > 0 && |fed| < seqLen
    ensures var next := sample(fed + [token]);
      var after := Generated(fed + [token], next, budget - 1, seqLen, stop, sample);
      Generated(fed, token, budget, seqLen, stop, sample) ==
        if next in stop then ([], fed + [token]) else ([next] + after.0, after.1)
  {
  }

  /** The prompt phase: every prompt token but the last is forwarded, while it fits in the context. */
  method ForwardPrompt(p: seq<nat>, seqLen: nat) returns (forwarded: seq<nat>, token: nat)
    requires p != []
    ensures forwarded == p[..PromptForwards(p, seqLen)] && token == p[PromptForwards(p, seqLen)]
  {
    forwarded := [];
    token := p[0];
    var pos := 0;
    var i := 1;
    while i < |p|
      invariant 1 <= i <= |p| && pos == i - 1 && pos <= seqLen
      invariant forwarded == p[..pos] && token == p[pos]
    {
      if pos >= seqLen {
        break;
      }
      forwarded := forwarded + [token];
      token := p[i];
      pos := pos + 1;
      i := i + 1;
    }
  }

  /**
   * The generation phase from the forwarded tokens and the pending one: its
   * emitted and forwarded tokens are those `Generated` describes.
   */
  method GenerationLoop(fed: seq<nat>, first: nat, maxTokens: nat, seqLen: nat, eos: nat, bos: nat, sample: seq<nat> -> nat)
    returns (response: seq<nat>, forwarded: seq<nat>)
    ensures (response, forwarded) == Generated(fed, first, maxTokens, seqLen, {eos, bos}, sample)
  {
    ghost var stop := {eos, bos};
    ghost var spec := Generated(fed, first, maxTokens, seqLen, stop, sample);
    forwarded := fed;
    var token := first;
    var pos := |fed|;
    response := [];
    var count := 0;
    var done := false;
    assert [] + spec.0 == spec.0;
    while !done && count < maxTokens && pos < seqLen
      invariant count <= maxTokens && (!done ==> pos == |forwarded|)
      invariant !done ==> spec == (response + Generated(forwarded, token, maxTokens - count, seqLen, stop, sample).0,
                                   Generated(forwarded, token, maxTokens - count, seqLen, stop, sample).1)
      invariant done ==> spec == (response, forwarded)
      decreases maxTokens - count, if done then 0 else 1
    {
      GeneratedStep(forwarded, token, maxTokens - count, seqLen, stop, sample);
      forwarded := forwarded + [token];
      var next := sample(forwarded);
      if next == eos || next == bos {
        assert response + [] == response;
        done := true;
      } else {
        assert response + ([next] + Generated(forwarded, next, maxTokens - count - 1, seqLen, stop, sample).0) ==
          (response + [next]) + Generated(forwarded, next, maxTokens - count - 1, seqLen, stop, sample).0;
        response := response + [next];
        token := next;
        pos := pos + 1;
        count := count + 1;
      }
    }
    if !done {
      assert response + [] == response;
    }
  }

  /**
   * `generate_api_response`: the prompt's tokens but the last are forwarded
   * at positions 0, 1, ... while they fit in the context; then tokens are
   * generated until `maxTokens`, the end of the context, or an EOS or BOS
   * token. An empty encoding is an error.
   */
  method GenerateApiResponse(tok: Tokenizer, sample: seq<nat> -> nat, seqLen: nat, prompt: string, maxTokens: nat)
    returns (r: Result<string, string>, response: seq<nat>, forwarded: seq<nat>)
    ensures tok.encode(prompt) == [] <==> r.Err?
    ensures r.Err? ==> r.error == "Empty prompt" && forwarded == [] && response == []
    ensures r.Ok? ==>
      var p := tok.encode(prompt);
      var k := PromptForwards(p, seqLen);
      (response, forwarded) == Generated(p[..k], p[k], maxTokens, seqLen, {tok.eosTokenId, tok.bosTokenId}, sample) &&
      r.value == DecodeAll(tok, response)
  {
    var p := tok.encode(prompt);
    if p == [] {
      return Err("Empty prompt"), [], [];
    }
    var fed, token := ForwardPrompt(p, seqLen);
    response, forwarded := GenerationLoop(fed, token, maxTokens, seqLen, tok.eosTokenId, tok.bosTokenId, sample);
    r := Ok(DecodeAll(tok, response));
  }

  /**
   * The loop's promises: at most `maxTokens` tokens, none of them EOS or
   * BOS, no position at or past the context length, and every emitted
   * token but possibly the last fed back at the following position.
   */
  lemma GenerationBounds(p: seq<nat>, seqLen: nat, maxTokens: nat, eos: nat, bos: nat, sample: seq<nat> -> nat)
    requires p != []
    ensures var k := PromptForwards(p, seqLen);
      var (response, forwarded) := Generated(p[..k], p[k], maxTokens, seqLen, {eos, bos}, sample);
      |response| <= maxTokens && eos !in response && bos !in response &&
      |forwarded| <= seqLen && forwarded[..k] == p[..k] &&
      forwarded == (p[..k + 1] + response)[..|forwarded|] &&
      (k < seqLen && maxTokens > 0 ==> |forwarded| == k + |response| + 1 || |forwarded| == k + |response|)
  {
    var k := PromptForwards(p, seqLen);
    var (response, forwarded) := Generated(p[..k], p[k], maxTokens, seqLen, {eos, bos}, sample);
    assert p[..k] + [p[k]] == p[..k + 1];
    assert forwarded[..k] == (p[..k + 1] + response)[..k];
  }

  /** A context of zero positions forwards nothing and generates nothing. */
  lemma ZeroContextGeneratesNothing(p: seq<nat>, maxTokens: nat, stop: set<nat>, sample: seq<nat> -> nat)
    requires p != []
    ensures Generated(p[..PromptForwards(p, 0)], p[PromptForwards(p, 0)], maxTokens, 0, stop, sample) == ([], [])
  {
  }

  // -----------------------------------------------------------------------
  // Handlers

  datatype Usage = Usage(promptTokens: nat, completionTokens: nat, totalTokens: nat)
  datatype ChatChoice = ChatChoice(message: ChatMessage, finishReason: Option<string>)
  datatype ChatResponse = ChatResponse(choices: seq<ChatChoice>, usage: Usage)
  datatype GenerateResponse = GenerateResponse(text: string, usage: Usage)

  datatype ChatRequest = ChatRequest(
    model: string,
    messages: seq<ChatMessage>,
    maxTokens: Option<nat>,
    temperature: Option<Bytes.f32>,
    topP: Option<Bytes.f32>,
    stream: Option<bool>)

  datatype GenerateRequest = GenerateRequest(
    model: string,
    prompt: string,
    maxTokens: Option<nat>,
    temperature: Option<Bytes.f32>,
    topP: Option<Bytes.f32>,
    stop: Option<seq<string>>)

  /** The sampler's settings: vocabulary size, temperature, top-p and seed. */
  datatype SamplerSettings = SamplerSettings(vocabSize: nat, temperature: Bytes.f32, topP: Bytes.f32, seed: nat)

  /** What a handler needs besides the registry: the tokenizer files and the model-and-sampler behaviour. */
  datatype Backend = Backend(
    tokenizer: (string, nat) -> Result<Tokenizer, string>,
    sampling: SamplerSettings -> (seq<nat> -> nat))

  const NOT_FOUND: nat := 404
  const INTERNAL_SERVER_ERROR: nat := 500
  const DEFAULT_MAX_TOKENS: nat := 100
  const SAMPLER_SEED: nat := 42

  /** The sampler settings a request gets: temperature 0.7 and top-p 0.9 unless given, seed 42. */
  function SettingsFor(vocabSize: nat, temperature: Option<Bytes.f32>, topP: Option<Bytes.f32>): (s: SamplerSettings)
    ensures s.vocabSize == vocabSize && s.seed == SAMPLER_SEED
    ensures temperature.None? ==> s.temperature == Bytes.F32_0_7
    ensures topP.None? ==> s.topP == Bytes.F32_0_9
    ensures temperature.Some? ==> s.temperature == temperature.value
    ensures topP.Some? ==> s.topP == topP.value
  {
    SamplerSettings(vocabSize, temperature.UnwrapOr(Bytes.F32_0_7), topP.UnwrapOr(Bytes.F32_0_9), SAMPLER_SEED)
  }

  /** The token usage of one exchange. */
  function UsageOf(tok: Tokenizer, prompt: string, text: string): (u: Usage)
    ensures u.promptTokens == |tok.encode(prompt)| && u.completionTokens == |tok.encode(text)|
    ensures u.totalTokens == u.promptTokens + u.completionTokens
  {
    Usage(|tok.encode(prompt)|, |tok.encode(text)|, |tok.encode(prompt)| + |tok.encode(text)|)
  }

  /** A registered entry answers the prompt: its tokenizer opens and the prompt encodes to at least one token. */
  predicate EntryAnswers(entry: Registry.LoadedModel, prompt: string, backend: Backend)
  {
    var tok := backend.tokenizer(entry.info.path, entry.engine.transformer.vocabSize);
    tok.Ok? && tok.value.encode(prompt) != []
  }

  /** The tokenizer of an entry that answers. */
  function EntryTokenizer(entry: Registry.LoadedModel, prompt: string, backend: Backend): Tokenizer
    requires EntryAnswers(entry, prompt, backend)
  {
    backend.tokenizer(entry.info.path, entry.engine.transformer.vocabSize).value
  }

  /** The untrimmed text an entry answers: the decoded tokens `Generated` emits for the encoded prompt. */
  function EntryAnswer(entry: Registry.LoadedModel, prompt: string, maxTokens: Option<nat>,
                       temperature: Option<Bytes.f32>, topP: Option<Bytes.f32>, backend: Backend): string
    requires EntryAnswers(entry, prompt, backend)
  {
    var config := entry.engine.transformer;
    var tok := EntryTokenizer(entry, prompt, backend);
    var sample := backend.sampling(SettingsFor(config.vocabSize, temperature, topP));
    var p := tok.encode(prompt);
    var k := PromptForwards(p, config.seqLen);
    var (response, _) := Generated(p[..k], p[k], maxTokens.UnwrapOr(DEFAULT_MAX_TOKENS), config.seqLen,
                                   {tok.eosTokenId, tok.bosTokenId}, sample);
    DecodeAll(tok, response)
  }

  /**
   * What a found model answers for the prompt: open its tokenizer and
   * generate. The answer is the untrimmed text and its usage, or an HTTP
   * status and message.
   */
  method Reply(entry: Registry.LoadedModel, prompt: string, maxTokens: Option<nat>,
               temperature: Option<Bytes.f32>, topP: Option<Bytes.f32>, backend: Backend)
    returns (r: Result<(string, Usage), (nat, string)>)
    ensures r.Err? ==> r.error.0 == INTERNAL_SERVER_ERROR
    ensures r.Ok? <==> EntryAnswers(entry, prompt, backend)
    ensures r.Ok? ==>
      r.value.0 == EntryAnswer(entry, prompt, maxTokens, temperature, topP, backend) &&
      r.value.1 == UsageOf(EntryTokenizer(entry, prompt, backend), prompt, r.value.0)
  {
    var config := entry.engine.transformer;
    var tok := backend.tokenizer(entry.info.path, config.vocabSize);
    if tok.Err? {
      return Err((INTERNAL_SERVER_ERROR, tok.error));
    }
    var sample := backend.sampling(SettingsFor(config.vocabSize, temperature, topP));
    var text, _, _ := GenerateApiResponse(tok.value, sample, config.seqLen, prompt, maxTokens.UnwrapOr(DEFAULT_MAX_TOKENS));
    if text.Err? {
      return Err((INTERNAL_SERVER_ERROR, text.error));
    }
    r := Ok((text.value, UsageOf(tok.value, prompt, text.value)));
  }

  /**
   * A request the registered model `model` can answer: it is loaded, its
   * tokenizer opens and the prompt encodes to at least one token.
   */
  predicate Answerable(models: map<string, Registry.LoadedModel>, model: string, prompt: string, backend: Backend)
  {
    model in models && EntryAnswers(models[model], prompt, backend)
  }

  /** The tokenizer of the model that answers. */
  function TokenizerFor(models: map<string, Registry.LoadedModel>, model: string, prompt: string, backend: Backend): Tokenizer
    requires Answerable(models, model, prompt, backend)
  {
    EntryTokenizer(models[model], prompt, backend)
  }

  /** The untrimmed text the registered model answers: the decoded generation `Reply` produces. */
  function Answer(models: map<string, Registry.LoadedModel>, model: string, prompt: string, maxTokens: Option<nat>,
                  temperature: Option<Bytes.f32>, topP: Option<Bytes.f32>, backend: Backend): string
    requires Answerable(models, model, prompt, backend)
  {
    EntryAnswer(models[model], prompt, maxTokens, temperature, topP, backend)
  }

  /**
   * The work shared by both endpoints once the prompt is known: find the
   * model, answer with `Reply`, and on success record the statistics. The
   * counter of requests in flight is not touched here.
   */
  method Serve(state: Registry.AppState, model: string, prompt: string, maxTokens: Option<nat>,
               temperature: Option<Bytes.f32>, topP: Option<Bytes.f32>, backend: Backend, now: nat)
    returns (r: Result<(string, Usage), (nat, string)>)
    requires state.Valid()
    modifies state
    ensures state.Valid() && state.activeRequests == old(state.activeRequests)
    ensures model !in old(state.models) ==> r == Err((NOT_FOUND, "Model not found"))
    ensures r.Ok? <==> Answerable(old(state.models), model, prompt, backend)
    ensures r.Err? ==> state.models == old(state.models)
    ensures r.Err? ==> r.error.0 in {NOT_FOUND, INTERNAL_SERVER_ERROR}
    ensures r.Ok? ==>
      Answerable(old(state.models), model, prompt, backend) &&
      r.value.0 == Answer(old(state.models), model, prompt, maxTokens, temperature, topP, backend) &&
      r.value.1 == UsageOf(TokenizerFor(old(state.models), model, prompt, backend), prompt, r.value.0) &&
      state.models == Registry.Recorded(old(state.models), model, r.value.1.completionTokens, now)
  {
    var found := state.GetModel(model);
    if found.None? {
      return Err((NOT_FOUND, "Model not found"));
    }
    ghost var before := state.models;
    r := Reply(found.value, prompt, maxTokens, temperature, topP, backend);
    if r.Ok? {
      assert Answerable(before, model, prompt, backend);
      state.RecordInference(model, r.value.1.completionTokens, now);
      assert state.models == Registry.Recorded(before, model, r.value.1.completionTokens, now);
    }
  }

  /** The chat endpoint's successful answer: one assistant choice holding the trimmed text, finished by "stop". */
  function ChatAnswer(text: string, usage: Usage): (c: ChatResponse)
    ensures |c.choices| == 1 && c.choices[0].message == ChatMessage("assistant", Trim(text))
    ensures c.choices[0].finishReason == Some("stop") && c.usage == usage
  {
    ChatResponse([ChatChoice(ChatMessage("assistant", Trim(text)), Some("stop"))], usage)
  }

  /**
   * POST /api/v1/chat as written: the counter of requests in flight goes up
   * on entry and down only on success, so every failed request leaves it
   * one higher.
   */
  method ChatHandler(state: Registry.AppState, request: ChatRequest, backend: Backend, now: nat)
    returns (r: Result<ChatResponse, (nat, string)>)
    requires state.Valid()
    modifies state
    ensures state.Valid()
    ensures r.Ok? ==> state.activeRequests == old(state.activeRequests)
    ensures r.Err? ==> state.activeRequests == old(state.activeRequests) + 1
    ensures request.model !in old(state.models) ==> r == Err((NOT_FOUND, "Model not found"))
    ensures r.Ok? <==> Answerable(old(state.models), request.model, Transcript(request.messages) + "Assistant:", backend)
    ensures r.Err? ==> state.models == old(state.models) && r.error.0 in {NOT_FOUND, INTERNAL_SERVER_ERROR}
    ensures r.Ok? ==>
      var prompt := Transcript(request.messages) + "Assistant:";
      Answerable(old(state.models), request.model, prompt, backend) &&
      var text := Answer(old(state.models), request.model, prompt, request.maxTokens, request.temperature, request.topP, backend);
      var usage := UsageOf(TokenizerFor(old(state.models), request.model, prompt, backend), prompt, text);
      r.value == ChatAnswer(text, usage) &&
      r.value.usage.totalTokens == r.value.usage.promptTokens + r.value.usage.completionTokens &&
      state.models == Registry.Recorded(old(state.models), request.model, usage.completionTokens, now)
  {
    state.activeRequests := state.activeRequests + 1;
    var prompt := FormatMessages(request.messages);
    var served := Serve(state, request.model, prompt, request.maxTokens, request.temperature, request.topP, backend, now);
    if served.Err? {
      return Err(served.error);
    }
    var (text, usage) := served.value;
    r := Ok(ChatAnswer(text, usage));
    state.activeRequests := state.activeRequests - 1;
  }

  /** POST /api/v1/generate as written: the same bookkeeping; `stop` is accepted but ignored. */
  method GenerateHandler(state: Registry.AppState, request: GenerateRequest, backend: Backend, now: nat)
    returns (r: Result<GenerateResponse, (nat, string)>)
    requires state.Valid()
    modifies state
    ensures state.Valid()
    ensures r.Ok? ==> state.activeRequests == old(state.activeRequests)
    ensures r.Err? ==> state.activeRequests == old(state.activeRequests) + 1
    ensures request.model !in old(state.models) ==> r == Err((NOT_FOUND, "Model not found"))
    ensures r.Ok? <==> Answerable(old(state.models), request.model, request.prompt, backend)
    ensures r.Err? ==> state.models == old(state.models) && r.error.0 in {NOT_FOUND, INTERNAL_SERVER_ERROR}
    ensures r.Ok? ==>
      Answerable(old(state.models), request.model, request.prompt, backend) &&
      var text := Answer(old(state.models), request.model, request.prompt, request.maxTokens, request.temperature, request.topP, backend);
      var usage := UsageOf(TokenizerFor(old(state.models), request.model, request.prompt, backend), request.prompt, text);
      r.value == GenerateResponse(Trim(text), usage) &&
      r.value.usage.totalTokens == r.value.usage.promptTokens + r.value.usage.completionTokens &&
      state.models == Registry.Recorded(old(state.models), request.model, usage.completionTokens, now)
  {
    state.activeRequests := state.activeRequests + 1;
    var served := Serve(state, request.model, request.prompt, request.maxTokens, request.temperature, request.topP, backend, now);
    if served.Err? {
      return Err(served.error);
    }
    var (text, usage) := served.value;
    r := Ok(GenerateResponse(Trim(text), usage));
    state.activeRequests := state.activeRequests - 1;
  }

  /** The chat endpoint with the counter released on every path, failures included; the answer is unchanged. */
  method ChatHandlerBalanced(state: Registry.AppState, request: ChatRequest, backend: Backend, now: nat)
    returns (r: Result<ChatResponse, (nat, string)>)
    requires state.Valid()
    modifies state
    ensures state.Valid()
    ensures state.activeRequests == old(state.activeRequests)
    ensures request.model !in old(state.models) ==> r == Err((NOT_FOUND, "Model not found"))
    ensures r.Ok? <==> Answerable(old(state.models), request.model, Transcript(request.messages) + "Assistant:", backend)
    ensures r.Err? ==> state.models == old(state.models) && r.error.0 in {NOT_FOUND, INTERNAL_SERVER_ERROR}
    ensures r.Ok? ==>
      var prompt := Transcript(request.messages) + "Assistant:";
      Answerable(old(state.models), request.model, prompt, backend) &&
      var text := Answer(old(state.models), request.model, prompt, request.maxTokens, request.temperature, request.topP, backend);
      var usage := UsageOf(TokenizerFor(old(state.models), request.model, prompt, backend), prompt, text);
      r.value == ChatAnswer(text, usage) &&
      state.models == Registry.Recorded(old(state.models), request.model, usage.completionTokens, now)
  {
    state.activeRequests := state.activeRequests + 1;
    var prompt := FormatMessages(request.messages);
    var served := Serve(state, request.model, prompt, request.maxTokens, request.temperature, request.topP, backend, now);
    state.activeRequests := state.activeRequests - 1;
    r := if served.Err? then Err(served.error) else Ok(ChatAnswer(served.value.0, served.value.1));
  }
}
