/**
 * The C engine's inference driver: a state object holding the
 * configuration, the sampler settings and the token buffer; generation
 * that feeds the prompt's ids and each sampled id back through the
 * transformer; and the interactive chat loop that turns each input line
 * into a chat prompt.
 *
 * The transformer's forward pass and the sampler are parameters
 * (`Oracles`): whether the forward pass succeeds on the ids so far, and
 * which id the sampler picks with which new seed.
 */
module InferenceInternal {
  import opened Wrappers
  import opened Bytes
  import Tokenizer

  /** `Qwen3InferenceConfigInternal`; `seed` is the optional seed, null when unset. */
  datatype InferenceConfig = InferenceConfig(
    vocabSize: u32,
    hiddenSize: u32,
    maxSeqLen: u32,
    maxNewTokens: u32,
    temperature: f32,
    topP: f32,
    topK: u32,
    eosTokenId: u32,
    seed: Option<u32>)

  const ZERO_CONFIG: InferenceConfig := InferenceConfig(0, 0, 0, 0, F32_ZERO, F32_ZERO, 0, 0, None)

  /** `Qwen3SamplerConfig`: what the sampler is called with. */
  datatype SamplerConfig = SamplerConfig(temperature: f32, topK: nat, topP: f32, seed: u32)

  const ZERO_SAMPLER: SamplerConfig := SamplerConfig(F32_ZERO, 0, F32_ZERO, 0)

  /** The output buffer holds 32 bytes per token of the maximum sequence. */
  const OUTPUT_BYTES_PER_TOKEN: nat := 32

  /**
   * What one generation step takes as given: whether the transformer's
   * forward pass succeeds on the ids so far, and the id the sampler picks
   * (negative on error) together with the seed it leaves behind.
   */
  datatype Oracles = Oracles(forward: seq<int> -> bool, sample: (seq<int>, SamplerConfig) -> (int, u32))

  /** The configurations `qwen3_inference_internal_init` refuses. */
  predicate InitRejects(c: InferenceConfig)
  {
    c.vocabSize == 0 || c.hiddenSize == 0 || c.maxSeqLen == 0
  }

  // -----------------------------------------------------------------------
  // Generation, as a function of the state it starts from

  /** A generation run: whether it succeeded, the ids and text so far, and the sampler's seed. */
  datatype Outcome = Outcome(ok: bool, tokens: seq<int>, text: seq<byte>, seed: u32)

  /** What stays fixed during a run. */
  datatype Env = Env(tok: Tokenizer.Tokenizer, maxSeqLen: nat, eos: u32, outputSize: nat, sampler: SamplerConfig, o: Oracles)

  /** The text an id decodes to, as `strlen` sees it; nothing for an id outside the table or without an entry. */
  function TokenText(t: Tokenizer.Tokenizer, id: int): (r: Option<seq<byte>>)
    requires Tokenizer.WellFormed(t)
    ensures r.Some? ==> 0 <= id < t.vocabSize && 0 !in r.value
  {
    match Tokenizer.Decode(t, id)
    case None => None
    case Some(entry) => Some(Tokenizer.CString(entry))
  }

  /** The output text after a token's text is offered: appended only while it leaves room for the terminator. */
  function Appended(text: seq<byte>, piece: Option<seq<byte>>, outputSize: nat): (r: seq<byte>)
    ensures text <= r
    ensures r != text ==> piece.Some? && r == text + piece.value && |r| < outputSize - 1
  {
    if piece.Some? && |text| + |piece.value| < outputSize - 1 then text + piece.value else text
  }

  /**
   * The generation loop from `tokens`, `text` and `seed`, with `left` steps
   * to go: it stops after the step budget or at the sequence length, fails
   * on a failed forward pass or a negative sample, stops at the end token
   * without keeping it, and otherwise keeps the id and offers its text.
   */
  function Steps(env: Env, tokens: seq<int>, text: seq<byte>, seed: u32, left: nat): Outcome
    requires Tokenizer.WellFormed(env.tok)
    decreases left
  {
    if left == 0 || |tokens| >= env.maxSeqLen then Outcome(true, tokens, text, seed)
    else if !env.o.forward(tokens) then Outcome(false, tokens, text, seed)
    else
      var pick := env.o.sample(tokens, env.sampler.(seed := seed));
      if pick.0 < 0 then Outcome(false, tokens, text, pick.1)
      else if pick.0 == I32FromBits(env.eos) then Outcome(true, tokens, text, pick.1)
      else Steps(env, tokens + [pick.0], Appended(text, TokenText(env.tok, pick.0), env.outputSize), pick.1, left - 1)
  }

  /** The ids the prompt encodes to, when there is a tokenizer to encode it. */
  function PromptIds(tokenizer: Option<Tokenizer.Tokenizer>, prompt: seq<byte>): seq<int>
    requires tokenizer.Some? ==> tokenizer.value.vocabSize > 0
  {
    if tokenizer.None? then [] else Tokenizer.WordIds(Tokenizer.SplitWords(prompt), tokenizer.value.vocabSize)
  }

  /**
   * `generate_tokens_internal` from a given state: nothing happens (`None`)
   * without a model, a transformer or a prompt, or when the prompt encodes
   * to no ids or to at least the maximum sequence length; otherwise the
   * generation loop runs from the prompt's ids with an empty text.
   */
  function Generation(tokenizer: Option<Tokenizer.Tokenizer>, hasModel: bool, hasTransformer: bool,
                      config: InferenceConfig, sampler: SamplerConfig, prompt: Option<seq<byte>>,
                      maxNewTokens: nat, outputSize: nat, o: Oracles): Option<Outcome>
    requires tokenizer.Some? ==> Tokenizer.WellFormed(tokenizer.value) && tokenizer.value.vocabSize > 0
  {
    if !hasModel || !hasTransformer || prompt.None? then None
    else
      var ids := PromptIds(tokenizer, prompt.value);
      if |ids| == 0 || |ids| >= config.maxSeqLen then None
      else
        var env := Env(tokenizer.value, config.maxSeqLen, config.eosTokenId, outputSize, sampler, o);
        Some(Steps(env, ids, [], sampler.seed, maxNewTokens))
  }

  /** What the C function returns for a generation: the output length on success, −1 otherwise. */
  function ReturnCode(g: Option<Outcome>): int
  {
    if g.Some? && g.value.ok then |g.value.text| else -1
  }

  /** The ids a run adds after `base`: none negative and none the end token. */
  predicate Generated(base: seq<int>, tokens: seq<int>, eos: u32)
  {
    base <= tokens && forall i :: |base| <= i < |tokens| ==> tokens[i] >= 0 && tokens[i] != I32FromBits(eos)
  }

  /**
   * A run keeps what it started with, adds at most `left` ids and never
   * passes the sequence length, adds no end token and no negative id, and
   * keeps the text short of the last byte of the output buffer.
   */
  lemma {:induction false} StepsBounds(env: Env, tokens: seq<int>, text: seq<byte>, seed: u32, left: nat)
    requires Tokenizer.WellFormed(env.tok)
    requires |tokens| <= env.maxSeqLen
    requires text == [] || |text| < env.outputSize - 1
    ensures var r := Steps(env, tokens, text, seed, left);
      Generated(tokens, r.tokens, env.eos) && |r.tokens| <= env.maxSeqLen && |r.tokens| <= |tokens| + left &&
      text <= r.text && (r.text == [] || |r.text| < env.outputSize - 1)
    decreases left
  {
    if left == 0 || |tokens| >= env.maxSeqLen {
    } else if env.o.forward(tokens) {
      var pick := env.o.sample(tokens, env.sampler.(seed := seed));
      if pick.0 >= 0 && pick.0 != I32FromBits(env.eos) {
        var next := tokens + [pick.0];
        var text' := Appended(text, TokenText(env.tok, pick.0), env.outputSize);
        StepsBounds(env, next, text', pick.1, left - 1);
        var r := Steps(env, next, text', pick.1, left - 1);
        assert r.tokens[..|next|] == next;
        assert forall i :: |tokens| <= i < |r.tokens| ==> r.tokens[i] >= 0 && r.tokens[i] != I32FromBits(env.eos) by {
          forall i | |tokens| <= i < |r.tokens|
            ensures r.tokens[i] >= 0 && r.tokens[i] != I32FromBits(env.eos)
          {
            if i == |tokens| {
              assert r.tokens[i] == next[i];
            }
          }
        }
      }
    }
  }

  /**
   * Generation starts only for a model, a transformer, a prompt and a
   * tokenizer, with a prompt of 1 to `maxSeqLen − 1` ids; a run that starts
   * keeps the prompt's ids in front, stays within the sequence length and
   * the step budget, adds neither the end token nor a negative id, and
   * leaves room for the terminator in the output buffer.
   */
  lemma GenerationBounds(tokenizer: Option<Tokenizer.Tokenizer>, hasModel: bool, hasTransformer: bool,
                         config: InferenceConfig, sampler: SamplerConfig, prompt: Option<seq<byte>>,
                         maxNewTokens: nat, outputSize: nat, o: Oracles)
    requires tokenizer.Some? ==> Tokenizer.WellFormed(tokenizer.value) && tokenizer.value.vocabSize > 0
    ensures var g := Generation(tokenizer, hasModel, hasTransformer, config, sampler, prompt, maxNewTokens, outputSize, o);
      g.Some? <==> (hasModel && hasTransformer && prompt.Some? && tokenizer.Some? &&
        0 < |PromptIds(tokenizer, prompt.value)| < config.maxSeqLen)
    ensures var g := Generation(tokenizer, hasModel, hasTransformer, config, sampler, prompt, maxNewTokens, outputSize, o);
      g.Some? ==>
        var ids := PromptIds(tokenizer, prompt.value);
        Generated(ids, g.value.tokens, config.eosTokenId) &&
        |g.value.tokens| <= config.maxSeqLen && |g.value.tokens| <= |ids| + maxNewTokens &&
        (g.value.text == [] || |g.value.text| < outputSize - 1)
  {
    var g := Generation(tokenizer, hasModel, hasTransformer, config, sampler, prompt, maxNewTokens, outputSize, o);
    if g.Some? {
      var ids := PromptIds(tokenizer, prompt.value);
      var env := Env(tokenizer.value, config.maxSeqLen, config.eosTokenId, outputSize, sampler, o);
      StepsBounds(env, ids, [], sampler.seed, maxNewTokens);
    }
  }

  /** A negative sample at the first step fails the run, and an end token at the first step ends it with nothing added. */
  lemma FirstStepStops(env: Env, tokens: seq<int>, seed: u32, left: nat)
    requires Tokenizer.WellFormed(env.tok)
    requires left > 0 && |tokens| < env.maxSeqLen && env.o.forward(tokens)
    ensures var pick := env.o.sample(tokens, env.sampler.(seed := seed));
      pick.0 < 0 ==> !Steps(env, tokens, [], seed, left).ok
    ensures var pick := env.o.sample(tokens, env.sampler.(seed := seed));
      pick.0 >= 0 && pick.0 == I32FromBits(env.eos) ==> Steps(env, tokens, [], seed, left) == Outcome(true, tokens, [], pick.1)
  {
  }

  // -----------------------------------------------------------------------
  // The chat loop, as a function of standard input

  /** `fgets` buffer, formatted prompt buffer and response buffer sizes. */
  const INPUT_SIZE: nat := 2048
  const PROMPT_SIZE: nat := 3072
  const RESPONSE_SIZE: nat := 4096

  /** ASCII text as bytes. */
  function ToBytes(s: string): (r: seq<byte>)
    ensures |r| == |s|
  {
    seq(|s|, i requires 0 <= i < |s| => (s[i] as int) % 256)
  }

  /** The ASCII bytes of "quit" and "exit", the lines that end the chat. */
  const QUIT: seq<byte> := [0x71, 0x75, 0x69, 0x74]
  const EXIT: seq<byte> := [0x65, 0x78, 0x69, 0x74]

  /** What one `fgets` call with `room` usable bytes takes: up to and including the first newline, at most `room` bytes. */
  function Chunk(input: seq<byte>, room: nat): (r: seq<byte>)
    ensures |r| <= |input| && |r| <= room
    ensures 0 < room && input != [] ==> r != []
    decreases room
  {
    if input == [] || room == 0 then []
    else if input[0] == 10 then [10]
    else [input[0]] + Chunk(input[1..], room - 1)
  }

  /** The input line as the loop sees it: the C string cut at its first newline. */
  function LineOf(chunk: seq<byte>): (r: seq<byte>)
    ensures |r| <= |chunk|
  {
    if chunk == [] || chunk[0] == 0 || chunk[0] == 10 then [] else [chunk[0]] + LineOf(chunk[1..])
  }

  /** `fgets` takes a prefix of its input, and it reads past a byte only when that byte is not a newline. */
  lemma {:induction false} ChunkIsPrefix(input: seq<byte>, room: nat)
    ensures Chunk(input, room) <= input
    ensures forall i :: 0 <= i < |Chunk(input, room)| - 1 ==> Chunk(input, room)[i] != 10
    decreases room
  {
    if input != [] && room != 0 && input[0] != 10 {
      ChunkIsPrefix(input[1..], room - 1);
      assert Chunk(input, room) == [input[0]] + Chunk(input[1..], room - 1);
    }
  }

  /** The line is a prefix of what was read, and holds neither a terminator nor a newline. */
  lemma {:induction false} LineOfIsClean(chunk: seq<byte>)
    ensures LineOf(chunk) <= chunk && 0 !in LineOf(chunk) && 10 !in LineOf(chunk)
  {
    if !(chunk == [] || chunk[0] == 0 || chunk[0] == 10) {
      LineOfIsClean(chunk[1..]);
      assert LineOf(chunk) == [chunk[0]] + LineOf(chunk[1..]);
    }
  }

  /** At most `n` bytes of `s`, as a bounded `snprintf` keeps. */
  function Truncate(s: seq<byte>, n: nat): (r: seq<byte>)
    ensures r <= s && |r| <= n
    ensures |s| <= n ==> r == s
  {
    if |s| <= n then s else s[..n]
  }

  /** The chat template around the user's line, with the system prompt's block when there is one. */
  function ChatTemplate(system: Option<seq<byte>>, user: seq<byte>): (r: seq<byte>)
    ensures |r| >= |user| + 31
    ensures r[|r| - 22..] == ToBytes("<|end|>\n<|assistant|>\n") && r[|r| - 22 - |user|..|r| - 22] == user
    ensures system.None? ==> |r| == |user| + 31 && r[..9] == ToBytes("<|user|>\n")
  {
    (if system.Some? then ToBytes("<|system|>\n") + Tokenizer.CString(system.value) + ToBytes("<|end|>\n") else []) +
    ToBytes("<|user|>\n") + user + ToBytes("<|end|>\n<|assistant|>\n")
  }

  /** The prompt formatted into the 3072-byte buffer: the template, cut to 3071 bytes. */
  function FormatPrompt(system: Option<seq<byte>>, user: seq<byte>): (r: seq<byte>)
    ensures |r| < PROMPT_SIZE && r <= ChatTemplate(system, user)
  {
    Truncate(ChatTemplate(system, user), PROMPT_SIZE - 1)
  }

  /**
   * The user lines the chat loop has answered when it ends, having answered
   * `answered` before reading `input` from offset `pos` line by line: it
   * stops at the end of the input or at a "quit" or "exit" line, skips
   * empty lines, and answers every other line, in order.
   */
  function ChatFrom(input: seq<byte>, pos: nat, answered: seq<seq<byte>>): seq<seq<byte>>
    requires pos <= |input|
    decreases |input| - pos
  {
    if pos == |input| then answered
    else
      var chunk := Chunk(input[pos..], INPUT_SIZE - 1);
      var line := LineOf(chunk);
      if line == QUIT || line == EXIT then answered
      else if line == [] then ChatFrom(input, pos + |chunk|, answered)
      else ChatFrom(input, pos + |chunk|, answered + [line])
  }

  /** The user lines a chat over the whole of `input` answers. */
  function ChatLines(input: seq<byte>): seq<seq<byte>>
  {
    ChatFrom(input, 0, [])
  }

  /** One line of the chat, read at offset `pos` as `chunk` and cut to `line`. */
  lemma ChatFromStep(input: seq<byte>, pos: nat, answered: seq<seq<byte>>, chunk: seq<byte>, line: seq<byte>)
    requires pos < |input| && chunk == Chunk(input[pos..], INPUT_SIZE - 1) && line == LineOf(chunk)
    ensures pos + |chunk| <= |input|
    ensures ChatFrom(input, pos, answered) ==
      if line == QUIT || line == EXIT then answered
      else if line == [] then ChatFrom(input, pos + |chunk|, answered)
      else ChatFrom(input, pos + |chunk|, answered + [line])
  {
  }

  /** What was answered earlier stays at the front of what is answered in the end. */
  lemma {:induction false} ChatFromKeeps(input: seq<byte>, pos: nat, earlier: seq<seq<byte>>, answered: seq<seq<byte>>)
    requires pos <= |input|
    ensures ChatFrom(input, pos, earlier + answered) == earlier + ChatFrom(input, pos, answered)
    decreases |input| - pos
  {
    if pos < |input| {
      var chunk := Chunk(input[pos..], INPUT_SIZE - 1);
      var line := LineOf(chunk);
      if line == QUIT || line == EXIT {
      } else if line == [] {
        ChatFromKeeps(input, pos + |chunk|, earlier, answered);
      } else {
        ChatFromKeeps(input, pos + |chunk|, earlier, answered + [line]);
        assert earlier + answered + [line] == earlier + (answered + [line]);
      }
    }
  }

  /** A line ending in a newline is one `fgets` read when it fits the buffer. */
  lemma {:induction false} ChunkOfLine(line: seq<byte>, rest: seq<byte>, room: nat)
    requires 10 !in line && |line| < room
    ensures Chunk(line + [10] + rest, room) == line + [10]
    decreases room
  {
    var s := line + [10] + rest;
    if line == [] {
      assert s[0] == 10;
    } else {
      assert s[0] == line[0] && s[1..] == line[1..] + [10] + rest;
      ChunkOfLine(line[1..], rest, room - 1);
    }
  }

  /** A line without zero bytes or newlines is itself once its newline is cut. */
  lemma {:induction false} LineOfLine(line: seq<byte>)
    requires 0 !in line && 10 !in line
    ensures LineOf(line + [10]) == line
  {
    if line != [] {
      assert (line + [10])[1..] == line[1..] + [10];
      LineOfLine(line[1..]);
    }
  }

  /**
   * An input line of fewer than 2047 bytes at offset `pos`, other than
   * "quit" and "exit", without zero bytes, is answered once, as itself,
   * after the lines before it; reading goes on past its newline.
   */
  lemma ChatLine(input: seq<byte>, pos: nat, line: seq<byte>, answered: seq<seq<byte>>)
    requires line != [] && 0 !in line && 10 !in line && |line| < INPUT_SIZE - 1
    requires line != QUIT && line != EXIT
    requires pos + |line| < |input| && input[pos..pos + |line| + 1] == line + [10]
    ensures ChatFrom(input, pos, answered) == ChatFrom(input, pos + |line| + 1, answered + [line])
  {
    var end := pos + |line| + 1;
    var rest := input[end..];
    assert input[pos..] == input[pos..end] + rest;
    ChunkOfLine(line, rest, INPUT_SIZE - 1);
    LineOfLine(line);
    ChatFromStep(input, pos, answered, line + [10], line);
  }

  /** A blank line is skipped, and a "quit" or "exit" line ends the chat whatever follows. */
  lemma ChatSkipsAndStops(input: seq<byte>, pos: nat, answered: seq<seq<byte>>)
    requires pos < |input|
    ensures input[pos] == 10 ==> ChatFrom(input, pos, answered) == ChatFrom(input, pos + 1, answered)
    ensures pos + 4 < |input| && input[pos..pos + 5] == QUIT + [10] ==> ChatFrom(input, pos, answered) == answered
    ensures pos + 4 < |input| && input[pos..pos + 5] == EXIT + [10] ==> ChatFrom(input, pos, answered) == answered
  {
    var rest := input[pos + 1..];
    if input[pos] == 10 {
      assert input[pos..] == [10] + rest;
      ChunkOfLine([], rest, INPUT_SIZE - 1);
      LineOfLine([]);
      ChatFromStep(input, pos, answered, [10], []);
    }
    if pos + 4 < |input| {
      var after := input[pos + 5..];
      if input[pos..pos + 5] == QUIT + [10] {
        assert input[pos..] == QUIT + [10] + after;
        ChunkOfLine(QUIT, after, INPUT_SIZE - 1);
        LineOfLine(QUIT);
        ChatFromStep(input, pos, answered, QUIT + [10], QUIT);
      }
      if input[pos..pos + 5] == EXIT + [10] {
        assert input[pos..] == EXIT + [10] + after;
        ChunkOfLine(EXIT, after, INPUT_SIZE - 1);
        LineOfLine(EXIT);
        ChatFromStep(input, pos, answered, EXIT + [10], EXIT);
      }
    }
  }

  /** A line of at most 2047 bytes always fits the prompt buffer when there is no system prompt, so nothing is cut. */
  lemma UserPromptUncut(user: seq<byte>)
    requires |user| < INPUT_SIZE
    ensures FormatPrompt(None, user) == ToBytes("<|user|>\n") + user + ToBytes("<|end|>\n<|assistant|>\n")
    ensures FormatPrompt(None, user)[9..9 + |user|] == user
  {
    var full := ToBytes("<|user|>\n") + user + ToBytes("<|end|>\n<|assistant|>\n");
    assert ChatTemplate(None, user) == [] + full;
    assert full[9..9 + |user|] == user;
  }

  // -----------------------------------------------------------------------
  // The inference object

  /**
   * `strcat` onto the end of the text at `pos`: the bytes of `s`, then the
   * terminator; everything before `pos` and after the terminator stays.
   */
  method Strcat(dst: array<byte>, pos: nat, s: seq<byte>)
    requires pos + |s| < dst.Length
    modifies dst
    ensures dst[..pos + |s|] == old(dst[..pos]) + s
    ensures dst[pos + |s|] == 0
    ensures forall i :: pos + |s| < i < dst.Length ==> dst[i] == old(dst[i])
  {
    for i := 0 to |s|
      invariant dst[..pos + i] == old(dst[..pos]) + s[..i]
      invariant forall j :: pos + i <= j < dst.Length ==> dst[j] == old(dst[j])
    {
      dst[pos + i] := s[i];
      assert s[..i + 1] == s[..i] + [s[i]];
      assert dst[..pos + i + 1] == dst[..pos + i] + [s[i]];
    }
    assert s[..|s|] == s;
    dst[pos + |s|] := 0;
    assert dst[..pos + |s|] == old(dst[..pos]) + s;
  }

  /** Where C's `strlen` stops when started at `from`: the first zero byte at or after it, or the end of the buffer. */
  function StrEnd(buf: seq<byte>, from: nat): (e: nat)
    requires from <= |buf|
    ensures from <= e <= |buf|
    ensures forall i :: from <= i < e ==> buf[i] != 0
    ensures e < |buf| ==> buf[e] == 0
    decreases |buf| - from
  {
    if from == |buf| || buf[from] == 0 then from else StrEnd(buf, from + 1)
  }

  /**
   * `strcat(buf + pos, s)` as C defines it: `s` and its terminator are
   * written where the text already at `pos` ends; `None` when that write
   * would run past the buffer.
   */
  function StrcatAsWritten(buf: seq<byte>, pos: nat, s: seq<byte>): (r: Option<seq<byte>>)
    requires pos <= |buf|
    ensures r.Some? <==> StrEnd(buf, pos) + |s| < |buf|
    ensures r.Some? ==> |r.value| == |buf| && r.value[..StrEnd(buf, pos)] == buf[..StrEnd(buf, pos)]
  {
    var e := StrEnd(buf, pos);
    if e + |s| < |buf| then Some(buf[..e] + s + [0] + buf[e + |s| + 1..]) else None
  }

  /** On a buffer whose text ends at `pos`, `strcat` writes exactly what `Strcat` writes. */
  lemma StrcatAtTerminator(buf: seq<byte>, pos: nat, s: seq<byte>)
    requires pos + |s| < |buf| && buf[pos] == 0
    ensures StrcatAsWritten(buf, pos, s) == Some(buf[..pos] + s + [0] + buf[pos + |s| + 1..])
  {
    assert StrEnd(buf, pos) == pos;
  }

  /**
   * The chat loop's response buffer is never emptied: when it still holds
   * an earlier answer of `|previous|` bytes, a piece the loop's bound check
   * lets through (it counts only this answer's bytes, none so far) is
   * appended after the old answer and runs past the 4096 bytes.
   */
  lemma ReusedResponseOverflows(buf: seq<byte>, previous: seq<byte>, piece: seq<byte>)
    requires |buf| == RESPONSE_SIZE && |previous| < |buf| && buf[..|previous|] == previous && buf[|previous|] == 0
    requires forall i :: 0 <= i < |previous| ==> previous[i] != 0
    requires |piece| < RESPONSE_SIZE - 1 && |previous| + |piece| >= RESPONSE_SIZE
    ensures 0 + |piece| < RESPONSE_SIZE - 1
    ensures StrcatAsWritten(buf, 0, piece).None?
  {
    assert forall i :: 0 <= i < |previous| ==> buf[i] == previous[i];
    assert StrEnd(buf, 0) == |previous|;
  }

  /** An instance: a first answer of 4000 bytes, then a 200-byte piece in the next turn. */
  lemma ReusedResponseExample()
    ensures var buf := seq(4000, _ => 97) + seq(RESPONSE_SIZE - 4000, _ => 0);
      StrcatAsWritten(buf, 0, seq(200, _ => 98)).None?
  {
    var buf := seq(4000, _ => 97) + seq(RESPONSE_SIZE - 4000, _ => 0);
    var previous := seq(4000, _ => 97);
    assert buf[..4000] == previous;
    ReusedResponseOverflows(buf, previous, seq(200, _ => 98));
  }

  /**
   * Decoding an id and appending its text to the terminated output text
   * while the text and its terminator still fit: the output then holds the
   * `Appended` text, terminated.
   */
  method Emit(output: array<byte>, pos: nat, t: Tokenizer.Tokenizer, id: int, ghost text: seq<byte>) returns (next: nat)
    requires Tokenizer.WellFormed(t)
    requires pos == |text| < output.Length && output[..pos] == text && output[pos] == 0
    modifies output
    ensures next == |Appended(text, TokenText(t, id), output.Length)| < output.Length
    ensures output[..next] == Appended(text, TokenText(t, id), output.Length) && output[next] == 0
  {
    next := pos;
    var entry := Tokenizer.Decode(t, id);
    if entry.Some? {
      var piece := Tokenizer.CString(entry.value);
      if pos + |piece| < output.Length - 1 {
        Strcat(output, pos, piece);
        next := pos + |piece|;
      }
    }
  }

  /**
   * The generation loop over the token buffer holding the prompt's ids:
   * the outcome, the sampler's last seed, the ids kept in the buffer and
   * the text in the output are those `Steps` describes.
   */
  method RunSteps(env: Env, buffer: array<int>, output: array<byte>, ids: seq<int>, maxNewTokens: nat)
    returns (ok: bool, seed: u32, outputPos: nat)
    requires Tokenizer.WellFormed(env.tok)
    requires env.outputSize == output.Length > 0 && env.maxSeqLen <= buffer.Length
    requires |ids| <= buffer.Length && buffer[..|ids|] == ids && output[0] == 0
    modifies buffer, output
    ensures var g := Steps(env, ids, [], env.sampler.seed, maxNewTokens);
      ok == g.ok && seed == g.seed && |g.tokens| <= buffer.Length && buffer[..|g.tokens|] == g.tokens &&
      outputPos == |g.text| < output.Length && output[..outputPos] == g.text && output[outputPos] == 0
  {
    var total := |ids|;
    var step := 0;
    outputPos := 0;
    seed := env.sampler.seed;
    ghost var final := Steps(env, ids, [], seed, maxNewTokens);
    ghost var tokens: seq<int> := ids;
    ghost var text: seq<byte> := [];
    while step < maxNewTokens && total < env.maxSeqLen
      invariant step <= maxNewTokens && total == |tokens| <= buffer.Length
      invariant buffer[..total] == tokens
      invariant outputPos == |text| < output.Length
      invariant output[..outputPos] == text && output[outputPos] == 0
      invariant final == Steps(env, tokens, text, seed, maxNewTokens - step)
    {
      if !env.o.forward(buffer[..total]) {
        return false, seed, outputPos;
      }
      var pick := env.o.sample(buffer[..total], env.sampler.(seed := seed));
      seed := pick.1;
      var next := pick.0;
      if next < 0 {
        return false, seed, outputPos;
      }
      if next == I32FromBits(env.eos) {
        break;
      }
      PushId(buffer, total, next, tokens);
      total := total + 1;
      tokens := tokens + [next];
      outputPos := Emit(output, outputPos, env.tok, next, text);
      text := Appended(text, TokenText(env.tok, next), output.Length);
      step := step + 1;
    }
    ok := true;
  }

  /** Stores the next id after the ones already in the buffer. */
  method PushId(buffer: array<int>, total: nat, id: int, ghost ids: seq<int>)
    requires total < buffer.Length && buffer[..total] == ids
    modifies buffer
    ensures buffer[..total + 1] == ids + [id]
  {
    buffer[total] := id;
    assert buffer[..total + 1] == buffer[..total] + [id];
  }

  /** A fresh zero-filled id buffer, as `calloc` gives it. */
  method ZeroIds(n: nat) returns (a: array<int>)
    ensures fresh(a) && a.Length == n && forall i :: 0 <= i < n ==> a[i] == 0
  {
    a := new int[n](_ => 0);
  }

  /** A fresh zero-filled byte buffer, as `calloc` gives it. */
  method ZeroBytes(n: nat) returns (a: array<byte>)
    ensures fresh(a) && a.Length == n && forall i :: 0 <= i < n ==> a[i] == 0
  {
    a := new byte[n](_ => 0);
  }

  /** The prompt's `memcpy` into the token buffer. */
  method CopyIds(dst: array<int>, ids: seq<nat>)
    requires |ids| <= dst.Length
    modifies dst
    ensures dst[..|ids|] == ids
  {
    for i := 0 to |ids|
      invariant dst[..i] == ids[..i]
    {
      dst[i] := ids[i];
      assert dst[..i + 1] == dst[..i] + [ids[i]];
      assert ids[..i + 1] == ids[..i] + [ids[i]];
    }
    assert ids[..|ids|] == ids;
  }

  /** `Qwen3InferenceInternal`: the model and the transformer are known only as present or not. */
  class Inference {
    var config: InferenceConfig
    var sampler: SamplerConfig
    var tokenizer: Option<Tokenizer.Tokenizer>
    var hasModel: bool
    var hasTransformer: bool
    var tokenBuffer: array<int>
    var logitsLength: nat
    var outputBuffer: array<byte>
    var maxTokens: nat

    /** A present tokenizer is well formed, and a loaded engine's token buffer spans the sequence length. */
    predicate Valid()
      reads this
    {
      (tokenizer.Some? ==> Tokenizer.WellFormed(tokenizer.value) && tokenizer.value.vocabSize > 0) &&
      (hasModel && hasTransformer ==> tokenBuffer.Length == config.maxSeqLen)
    }

    /** The zeroed structure the caller passes in. */
    constructor ()
      ensures Valid()
      ensures config == ZERO_CONFIG && sampler == ZERO_SAMPLER && tokenizer.None? && !hasModel && !hasTransformer
      ensures tokenBuffer.Length == 0 && logitsLength == 0 && outputBuffer.Length == 0 && maxTokens == 0
    {
      config := ZERO_CONFIG;
      sampler := ZERO_SAMPLER;
      tokenizer := None;
      hasModel := false;
      hasTransformer := false;
      tokenBuffer := new int[0];
      logitsLength := 0;
      outputBuffer := new byte[0];
      maxTokens := 0;
    }

    /**
     * `qwen3_inference_internal_init`: the structure is cleared and the
     * configuration copied before it is checked; a zero vocabulary size,
     * hidden size or sequence length fails. Otherwise the sampler takes the
     * configured temperature, top-k, top-p and seed (the clock's low 32 bits
     * without one), and zeroed buffers of `maxSeqLen` ids, `vocabSize`
     * logits and 32 output bytes per id are allocated.
     */
    method Init(cfg: InferenceConfig, now: nat) returns (r: int)
      modifies this
      ensures Valid()
      ensures r == 0 || r == -1
      ensures r == -1 <==> InitRejects(cfg)
      ensures config == cfg && tokenizer.None? && !hasModel && !hasTransformer
      ensures r == -1 ==> sampler == ZERO_SAMPLER && tokenBuffer.Length == 0 && logitsLength == 0 && outputBuffer.Length == 0 && maxTokens == 0
      ensures r == 0 ==> sampler == SamplerConfig(cfg.temperature, cfg.topK, cfg.topP, if cfg.seed.Some? then cfg.seed.value else WrapU32(now))
      ensures r == 0 ==> maxTokens == cfg.maxSeqLen && logitsLength == cfg.vocabSize
      ensures r == 0 ==> fresh(tokenBuffer) && tokenBuffer.Length == cfg.maxSeqLen && forall i :: 0 <= i < tokenBuffer.Length ==> tokenBuffer[i] == 0
      ensures r == 0 ==> fresh(outputBuffer) && outputBuffer.Length == cfg.maxSeqLen * OUTPUT_BYTES_PER_TOKEN
      ensures r == 0 ==> forall i :: 0 <= i < outputBuffer.Length ==> outputBuffer[i] == 0
    {
      sampler := ZERO_SAMPLER;
      tokenizer := None;
      hasModel := false;
      hasTransformer := false;
      tokenBuffer := new int[0];
      logitsLength := 0;
      outputBuffer := new byte[0];
      maxTokens := 0;
      config := cfg;
      if cfg.vocabSize == 0 || cfg.hiddenSize == 0 || cfg.maxSeqLen == 0 {
        return -1;
      }
      var seed := if cfg.seed.Some? then cfg.seed.value else WrapU32(now);
      sampler := SamplerConfig(cfg.temperature, cfg.topK, cfg.topP, seed);
      maxTokens := cfg.maxSeqLen;
      tokenBuffer := ZeroIds(maxTokens);
      logitsLength := cfg.vocabSize;
      outputBuffer := ZeroBytes(maxTokens * OUTPUT_BYTES_PER_TOKEN);
      r := 0;
    }

    /** `qwen3_inference_internal_set_parameters`: the four sampler settings are replaced and nothing else. */
    method SetParameters(temperature: f32, topP: f32, topK: nat, seed: u32)
      modifies this
      ensures sampler == SamplerConfig(temperature, topK, topP, seed)
      ensures config == old(config) && tokenizer == old(tokenizer)
      ensures hasModel == old(hasModel) && hasTransformer == old(hasTransformer)
      ensures tokenBuffer == old(tokenBuffer) && logitsLength == old(logitsLength)
      ensures outputBuffer == old(outputBuffer) && maxTokens == old(maxTokens)
      ensures Valid() <==> old(Valid())
    {
      sampler := SamplerConfig(temperature, topK, topP, seed);
    }

    /** The state generation depends on, as a function. */
    function GenerationHere(prompt: Option<seq<byte>>, maxNewTokens: nat, outputSize: nat, o: Oracles): Option<Outcome>
      reads this
      requires Valid()
    {
      Generation(tokenizer, hasModel, hasTransformer, config, sampler, prompt, maxNewTokens, outputSize, o)
    }

    /**
     * `generate_tokens_internal` with an output buffer of `output.Length`
     * bytes: the result is `Generation`'s. When generation does not start,
     * nothing changes; when it runs, the token buffer starts with its ids,
     * the output buffer with its text and a terminator, and the sampler
     * keeps its final seed. The output is made the empty string before the
     * loop, so the text starts at its first byte whatever the buffer held.
     */
    method GenerateTokens(prompt: Option<seq<byte>>, maxNewTokens: nat, output: array<byte>, o: Oracles) returns (r: int)
      requires Valid() && output.Length > 0
      modifies this, tokenBuffer, output
      ensures Valid()
      ensures config == old(config) && tokenizer == old(tokenizer)
      ensures hasModel == old(hasModel) && hasTransformer == old(hasTransformer)
      ensures tokenBuffer == old(tokenBuffer) && logitsLength == old(logitsLength)
      ensures outputBuffer == old(outputBuffer) && maxTokens == old(maxTokens)
      ensures sampler == old(sampler).(seed := sampler.seed)
      ensures r == ReturnCode(old(GenerationHere(prompt, maxNewTokens, output.Length, o)))
      ensures old(GenerationHere(prompt, maxNewTokens, output.Length, o)).None? ==>
        sampler == old(sampler) && output[..] == old(output[..]) && tokenBuffer[..] == old(tokenBuffer[..])
      ensures old(GenerationHere(prompt, maxNewTokens, output.Length, o)).Some? ==>
        var g := old(GenerationHere(prompt, maxNewTokens, output.Length, o)).value;
        sampler.seed == g.seed && |g.tokens| <= tokenBuffer.Length && tokenBuffer[..|g.tokens|] == g.tokens &&
        |g.text| < output.Length && output[..|g.text|] == g.text && output[|g.text|] == 0
    {
      if !hasModel || !hasTransformer || prompt.None? {
        return -1;
      }
      var count: nat := 0;
      var ids: seq<nat> := [];
      if tokenizer.Some? {
        count, ids := Tokenizer.Encode(tokenizer.value, prompt);
      }
      if count == 0 {
        return -1;
      }
      if count >= config.maxSeqLen {
        return -1;
      }
      var t := tokenizer.value;
      assert old(GenerationHere(prompt, maxNewTokens, output.Length, o)) ==
        Some(Steps(Env(t, config.maxSeqLen, config.eosTokenId, output.Length, sampler, o), ids, [], sampler.seed, maxNewTokens));
      CopyIds(tokenBuffer, ids);
      output[0] := 0;
      var ok, seed, outputPos := RunSteps(Env(t, config.maxSeqLen, config.eosTokenId, output.Length, sampler, o), tokenBuffer, output, ids, maxNewTokens);
      sampler := sampler.(seed := seed);
      r := if ok then outputPos else -1;
    }

    /** `qwen3_inference_internal_generate`: an empty output buffer fails; otherwise the configured step budget is used. */
    method Generate(prompt: Option<seq<byte>>, output: array<byte>, o: Oracles) returns (r: int)
      requires Valid()
      modifies this, tokenBuffer, output
      ensures Valid()
      ensures config == old(config) && tokenizer == old(tokenizer)
      ensures hasModel == old(hasModel) && hasTransformer == old(hasTransformer)
      ensures tokenBuffer == old(tokenBuffer) && logitsLength == old(logitsLength)
      ensures outputBuffer == old(outputBuffer) && maxTokens == old(maxTokens)
      ensures sampler == old(sampler).(seed := sampler.seed)
      ensures output.Length == 0 ==>
        r == -1 && sampler == old(sampler) && tokenBuffer[..] == old(tokenBuffer[..])
      ensures output.Length > 0 ==> r == ReturnCode(old(GenerationHere(prompt, config.maxNewTokens, output.Length, o)))
      ensures output.Length > 0 && old(GenerationHere(prompt, config.maxNewTokens, output.Length, o)).None? ==>
        sampler == old(sampler) && output[..] == old(output[..]) && tokenBuffer[..] == old(tokenBuffer[..])
      ensures output.Length > 0 && old(GenerationHere(prompt, config.maxNewTokens, output.Length, o)).Some? ==>
        var g := old(GenerationHere(prompt, config.maxNewTokens, output.Length, o)).value;
        sampler.seed == g.seed && |g.tokens| <= tokenBuffer.Length && tokenBuffer[..|g.tokens|] == g.tokens &&
        |g.text| < output.Length && output[..|g.text|] == g.text && output[|g.text|] == 0
    {
      if output.Length == 0 || prompt.None? {
        return -1;
      }
      r := GenerateTokens(prompt, config.maxNewTokens, output, o);
    }

    /**
     * One turn of the chat loop from offset `pos`: `fgets` the next line;
     * stop on "quit" or "exit"; skip an empty line; otherwise format the
     * prompt and run a generation for it into the loop's one response
     * buffer, which keeps the answer until the next turn overwrites it.
     */
    method ChatTurn(input: seq<byte>, pos: nat, system: Option<seq<byte>>, response: array<byte>, o: Oracles,
                    ghost answered: seq<seq<byte>>)
      returns (stop: bool, next: nat, line: Option<seq<byte>>, prompt: seq<byte>)
      requires Valid() && pos < |input| && response.Length == RESPONSE_SIZE
      modifies this, tokenBuffer, response
      ensures Valid()
      ensures config == old(config) && tokenizer == old(tokenizer)
      ensures hasModel == old(hasModel) && hasTransformer == old(hasTransformer)
      ensures tokenBuffer == old(tokenBuffer) && logitsLength == old(logitsLength)
      ensures outputBuffer == old(outputBuffer) && maxTokens == old(maxTokens)
      ensures sampler == old(sampler).(seed := sampler.seed)
      ensures pos < next <= |input|
      ensures stop ==> ChatFrom(input, pos, answered) == answered
      ensures !stop ==> (ChatFrom(input, pos, answered) == ChatFrom(input, next, if line.Some? then answered + [line.value] else answered))
      ensures stop ==> line.None?
      ensures line.None? ==>
        sampler == old(sampler) && tokenBuffer[..] == old(tokenBuffer[..]) && response[..] == old(response[..])
      ensures line.Some? ==> prompt == FormatPrompt(system, line.value)
      ensures line.Some? && old(GenerationHere(Some(prompt), config.maxNewTokens, RESPONSE_SIZE, o)).None? ==>
        sampler == old(sampler) && tokenBuffer[..] == old(tokenBuffer[..])
      ensures line.Some? && old(GenerationHere(Some(prompt), config.maxNewTokens, RESPONSE_SIZE, o)).Some? ==>
        var g := old(GenerationHere(Some(prompt), config.maxNewTokens, RESPONSE_SIZE, o)).value;
        sampler.seed == g.seed && |g.tokens| <= tokenBuffer.Length && tokenBuffer[..|g.tokens|] == g.tokens &&
        |g.text| < RESPONSE_SIZE && response[..|g.text|] == g.text && response[|g.text|] == 0
    {
      var chunk := Chunk(input[pos..], INPUT_SIZE - 1);
      var text := LineOf(chunk);
      next := pos + |chunk|;
      stop := text == QUIT || text == EXIT;
      line := None;
      prompt := [];
      if !stop && text != [] {
        line := Some(text);
        prompt := FormatPrompt(system, text);
        var _ := GenerateTokens(Some(prompt), config.maxNewTokens, response, o);
      }
    }

    /**
     * `qwen3_inference_internal_chat` reading `input` as standard input:
     * it answers the lines `ChatLines` lists, in order, each with a
     * generation for its formatted prompt into one 4096-byte response
     * buffer declared once for the whole loop; the result is always 0.
     */
    method Chat(input: seq<byte>, system: Option<seq<byte>>, o: Oracles) returns (r: int, lines: seq<seq<byte>>)
      requires Valid()
      modifies this, tokenBuffer
      ensures Valid()
      ensures config == old(config) && tokenizer == old(tokenizer)
      ensures hasModel == old(hasModel) && hasTransformer == old(hasTransformer)
      ensures tokenBuffer == old(tokenBuffer) && logitsLength == old(logitsLength)
      ensures outputBuffer == old(outputBuffer) && maxTokens == old(maxTokens)
      ensures sampler == old(sampler).(seed := sampler.seed)
      ensures r == 0 && lines == ChatLines(input)
      ensures lines == [] ==> sampler == old(sampler) && tokenBuffer[..] == old(tokenBuffer[..])
    {
      var response := new byte[RESPONSE_SIZE];
      var pos: nat := 0;
      var done := false;
      lines := [];
      while !done && pos < |input|
        invariant pos <= |input| && Valid()
        invariant config == old(config) && tokenizer == old(tokenizer)
        invariant hasModel == old(hasModel) && hasTransformer == old(hasTransformer)
        invariant tokenBuffer == old(tokenBuffer) && logitsLength == old(logitsLength)
        invariant outputBuffer == old(outputBuffer) && maxTokens == old(maxTokens)
        invariant sampler == old(sampler).(seed := sampler.seed)
        invariant lines == [] ==> sampler == old(sampler) && tokenBuffer[..] == old(tokenBuffer[..])
        invariant if done then lines == ChatLines(input) else ChatFrom(input, pos, lines) == ChatLines(input)
        decreases |input| - pos, !done
      {
        var stop, next, line, _ := ChatTurn(input, pos, system, response, o, lines);
        if stop {
          done := true;
        } else {
          if line.Some? {
            lines := lines + [line.value];
          }
          pos := next;
        }
      }
      r := 0;
    }
  }
}
