/**
 * The C engine's tokenizer: a binary vocabulary file (three 32-bit header
 * words, then records of a score, a length and that many bytes), a
 * whitespace word splitter that hashes each word to an id, and decoding of
 * ids back to vocabulary entries. Text is bytes; a vocabulary entry read as
 * a C string ends at its first zero byte.
 */
module Tokenizer {
  import opened Wrappers
  import opened Bytes

  /** The vocabulary size every loaded tokenizer gets, whatever the file holds. */
  const VOCAB_SIZE: nat := 32000

  /** Longer records stop the load. */
  const MAX_TOKEN_BYTES: nat := 1024

  /** Bytes before the first record: maximum token length, begin and end token ids. */
  const HEADER_BYTES: nat := 12

  /** `Qwen3Tokenizer`: entries never read are `None` (the C array holds NULL there). */
  datatype Tokenizer = Tokenizer(
    vocab: seq<Option<seq<byte>>>,
    vocabScores: seq<f32>,
    vocabSize: nat,
    bosTokenId: u32,
    eosTokenId: u32,
    padTokenId: u32,
    unkTokenId: u32)

  predicate WellFormed(t: Tokenizer)
  {
    |t.vocab| == t.vocabSize && |t.vocabScores| == t.vocabSize
  }

  // -----------------------------------------------------------------------
  // Loading

  datatype TokenRecord = TokenRecord(score: f32, text: seq<byte>)

  /**
   * The records read from `file` at `pos`, at most `room` of them: reading
   * stops at a record whose score or length is cut short, whose length is
   * over 1024, or whose bytes are cut short.
   */
  function ReadRecords(file: seq<byte>, pos: nat, room: nat): (r: seq<TokenRecord>)
    decreases room
    ensures |r| <= room
    ensures forall i :: 0 <= i < |r| ==> |r[i].text| <= MAX_TOKEN_BYTES
  {
    if room == 0 || pos + 8 > |file| then []
    else
      var len := U32At(file, pos + 4);
      if len > MAX_TOKEN_BYTES || pos + 8 + len > |file| then []
      else [TokenRecord(U32At(file, pos), file[pos + 8..pos + 8 + len])] + ReadRecords(file, pos + 8 + len, room - 1)
  }

  /** The vocabulary table after loading `records`: their texts first, empty entries after. */
  function VocabOf(records: seq<TokenRecord>): (r: seq<Option<seq<byte>>>)
    requires |records| <= VOCAB_SIZE
    ensures |r| == VOCAB_SIZE
  {
    seq(VOCAB_SIZE, i requires 0 <= i < VOCAB_SIZE => if i < |records| then Some(records[i].text) else None)
  }

  function ScoresOf(records: seq<TokenRecord>): (r: seq<f32>)
    requires |records| <= VOCAB_SIZE
    ensures |r| == VOCAB_SIZE
  {
    seq(VOCAB_SIZE, i requires 0 <= i < VOCAB_SIZE => if i < |records| then records[i].score else F32_ZERO)
  }

  /**
   * What `qwen3_tokenizer_load` builds from a file: nothing if the header
   * is short; otherwise 32000 entries filled from the records, with the
   * padding and unknown ids equal to the begin id.
   */
  function Loaded(file: seq<byte>): (r: Option<Tokenizer>)
    ensures r.None? <==> |file| < HEADER_BYTES
    ensures r.Some? ==> WellFormed(r.value) && r.value.vocabSize == VOCAB_SIZE
    ensures r.Some? ==> r.value.padTokenId == r.value.bosTokenId && r.value.unkTokenId == r.value.bosTokenId
  {
    if |file| < HEADER_BYTES then None
    else
      var records := ReadRecords(file, HEADER_BYTES, VOCAB_SIZE);
      var bos := U32At(file, 4);
      Some(Tokenizer(VocabOf(records), ScoresOf(records), VOCAB_SIZE, bos, U32At(file, 8), bos, bos))
  }

  /** A record as the file stores it. */
  function RecordBytes(r: TokenRecord): (b: seq<byte>)
    requires |r.text| < U32_LIMIT
    ensures |b| == 8 + |r.text|
  {
    U32Bytes(r.score) + U32Bytes(|r.text|) + r.text
  }

  function RecordsBytes(rs: seq<TokenRecord>): (b: seq<byte>)
    requires forall i :: 0 <= i < |rs| ==> |rs[i].text| < U32_LIMIT
  {
    if rs == [] then [] else RecordBytes(rs[0]) + RecordsBytes(rs[1..])
  }

  /** A tokenizer file: the header words, then the records. */
  function FileBytes(maxTokenLength: u32, bos: u32, eos: u32, rs: seq<TokenRecord>): seq<byte>
    requires forall i :: 0 <= i < |rs| ==> |rs[i].text| < U32_LIMIT
  {
    U32Bytes(maxTokenLength) + U32Bytes(bos) + U32Bytes(eos) + RecordsBytes(rs)
  }

  /** A record stored at `pos` is read back field by field, and what follows it starts behind its text. */
  lemma RecordAt(file: seq<byte>, pos: nat, r: TokenRecord, rest: seq<byte>)
    requires |r.text| <= MAX_TOKEN_BYTES
    requires pos <= |file| && file[pos..] == RecordBytes(r) + rest
    ensures pos + 8 + |r.text| <= |file|
    ensures U32At(file, pos) == r.score && U32At(file, pos + 4) == |r.text|
    ensures file[pos + 8..pos + 8 + |r.text|] == r.text
    ensures file[pos + 8 + |r.text|..] == rest
  {
    var tail := file[pos..];
    assert file[pos..pos + 4] == tail[..4] == U32Bytes(r.score);
    assert file[pos + 4..pos + 8] == tail[4..8] == U32Bytes(|r.text|);
    assert file[pos + 8..pos + 8 + |r.text|] == tail[8..8 + |r.text|] == r.text;
    assert file[pos + 8 + |r.text|..] == tail[8 + |r.text|..] == rest;
    U32AtBytes(file, pos, r.score);
    U32AtBytes(file, pos + 4, |r.text|);
  }

  /** One step of reading: a complete record of acceptable length is taken and reading goes on behind it. */
  lemma ReadRecordsStep(file: seq<byte>, pos: nat, room: nat, r: TokenRecord, rest: seq<TokenRecord>)
    requires room > 0 && |r.text| <= MAX_TOKEN_BYTES && pos + 8 + |r.text| <= |file|
    requires U32At(file, pos) == r.score && U32At(file, pos + 4) == |r.text|
    requires file[pos + 8..pos + 8 + |r.text|] == r.text
    requires ReadRecords(file, pos + 8 + |r.text|, room - 1) == rest
    ensures ReadRecords(file, pos, room) == [r] + rest
  {
  }

  /** `rs` lie in `file` from `pos` to its end, each as its fields' reads give it back. */
  ghost predicate Stored(file: seq<byte>, pos: nat, rs: seq<TokenRecord>)
    decreases |rs|
  {
    if rs == [] then pos == |file|
    else
      var r := rs[0];
      |r.text| <= MAX_TOKEN_BYTES && pos + 8 + |r.text| <= |file| &&
      U32At(file, pos) == r.score && U32At(file, pos + 4) == |r.text| &&
      file[pos + 8..pos + 8 + |r.text|] == r.text &&
      Stored(file, pos + 8 + |r.text|, rs[1..])
  }

  /** One step of `Stored`: a record read back at `pos`, followed by stored records. */
  lemma StoredStep(file: seq<byte>, pos: nat, r: TokenRecord, rest: seq<TokenRecord>)
    requires |r.text| <= MAX_TOKEN_BYTES && pos + 8 + |r.text| <= |file|
    requires U32At(file, pos) == r.score && U32At(file, pos + 4) == |r.text|
    requires file[pos + 8..pos + 8 + |r.text|] == r.text
    requires Stored(file, pos + 8 + |r.text|, rest)
    ensures Stored(file, pos, [r] + rest)
  {
    assert ([r] + rest)[1..] == rest;
  }

  /** Written records are stored in the sense of `Stored`. */
  lemma {:induction false} RecordsStored(file: seq<byte>, pos: nat, rs: seq<TokenRecord>)
    requires forall i :: 0 <= i < |rs| ==> |rs[i].text| <= MAX_TOKEN_BYTES
    requires pos <= |file| && file[pos..] == RecordsBytes(rs)
    ensures Stored(file, pos, rs)
    decreases |rs|
  {
    if rs != [] {
      var r := rs[0];
      assert RecordsBytes(rs) == RecordBytes(r) + RecordsBytes(rs[1..]);
      RecordAt(file, pos, r, RecordsBytes(rs[1..]));
      RecordsStored(file, pos + 8 + |r.text|, rs[1..]);
      StoredStep(file, pos, r, rs[1..]);
      assert [r] + rs[1..] == rs;
    } else {
      assert pos == |file|;
    }
  }

  /** Reading stored records back gives the records, when there is room for them. */
  lemma {:induction false} ReadRecordsFrom(file: seq<byte>, pos: nat, rs: seq<TokenRecord>, room: nat)
    requires Stored(file, pos, rs) && |rs| <= room
    ensures ReadRecords(file, pos, room) == rs
    decreases |rs|
  {
    if rs != [] {
      var r := rs[0];
      ReadRecordsFrom(file, pos + 8 + |r.text|, rs[1..], room - 1);
      ReadRecordsStep(file, pos, room, r, rs[1..]);
    }
  }

  /**
   * Loading a written file gives back its header ids and records: each
   * record's text is the entry at its index, the remaining entries are
   * empty, and the padding and unknown ids are the begin id.
   */
  lemma LoadRoundTrip(maxTokenLength: u32, bos: u32, eos: u32, rs: seq<TokenRecord>)
    requires |rs| <= VOCAB_SIZE
    requires forall i :: 0 <= i < |rs| ==> |rs[i].text| <= MAX_TOKEN_BYTES
    ensures Loaded(FileBytes(maxTokenLength, bos, eos, rs)).Some?
    ensures Loaded(FileBytes(maxTokenLength, bos, eos, rs)).value ==
      Tokenizer(VocabOf(rs), ScoresOf(rs), VOCAB_SIZE, bos, eos, bos, bos)
  {
    var header := U32Bytes(maxTokenLength) + U32Bytes(bos) + U32Bytes(eos);
    var file := FileBytes(maxTokenLength, bos, eos, rs);
    assert file == header + RecordsBytes(rs);
    assert file[4..8] == U32Bytes(bos);
    assert file[8..12] == U32Bytes(eos);
    U32AtBytes(file, 4, bos);
    U32AtBytes(file, 8, eos);
    assert file[|header|..] == RecordsBytes(rs);
    RecordsStored(file, |header|, rs);
    ReadRecordsFrom(file, |header|, rs, VOCAB_SIZE);
  }

  /** The tables hold the texts and scores of `read` in order, and nothing after them. */
  ghost predicate Filled(vocab: seq<Option<seq<byte>>>, scores: seq<f32>, read: seq<TokenRecord>)
  {
    |read| <= VOCAB_SIZE && |vocab| == VOCAB_SIZE && |scores| == VOCAB_SIZE &&
    (forall i :: 0 <= i < VOCAB_SIZE ==> vocab[i] == (if i < |read| then Some(read[i].text) else None)) &&
    (forall i :: 0 <= i < VOCAB_SIZE ==> scores[i] == (if i < |read| then read[i].score else F32_ZERO))
  }

  /** Storing one more record at the next free entry keeps the tables filled. */
  lemma FilledStep(vocab: seq<Option<seq<byte>>>, scores: seq<f32>, read: seq<TokenRecord>, record: TokenRecord)
    requires Filled(vocab, scores, read) && |read| < VOCAB_SIZE
    ensures Filled(vocab[|read| := Some(record.text)], scores[|read| := record.score], read + [record])
  {
  }

  /** Storing a record's text and score at the next free entry of the tables. */
  method Store(vocab: array<Option<seq<byte>>>, scores: array<f32>, count: nat, record: TokenRecord, ghost read: seq<TokenRecord>)
    requires Filled(vocab[..], scores[..], read) && count == |read| < VOCAB_SIZE
    modifies vocab, scores
    ensures Filled(vocab[..], scores[..], read + [record])
  {
    FilledStep(vocab[..], scores[..], read, record);
    vocab[count] := Some(record.text);
    scores[count] := record.score;
  }

  /** Filled tables are the tables `Loaded` describes. */
  lemma TablesOf(vocab: seq<Option<seq<byte>>>, scores: seq<f32>, read: seq<TokenRecord>)
    requires Filled(vocab, scores, read)
    ensures vocab == VocabOf(read) && scores == ScoresOf(read)
  {
  }

  /** Moving one record from what is left to read over to what was read keeps the whole. */
  lemma ReadOneMore(total: seq<TokenRecord>, read: seq<TokenRecord>, record: TokenRecord, left: seq<TokenRecord>, rest: seq<TokenRecord>)
    requires total == read + left && left == [record] + rest
    ensures total == (read + [record]) + rest
  {
  }

  /**
   * One pass of the load loop's reads at `pos`: the score, the length and
   * the text, failing on a short read or an over-long length; on success
   * the record is the next one `ReadRecords` takes, and on failure reading
   * stops there.
   */
  method ReadRecord(file: seq<byte>, pos: nat, ghost room: nat) returns (ok: bool, record: TokenRecord, next: nat)
    requires room > 0
    ensures ok ==> next == pos + 8 + |record.text| && ReadRecords(file, pos, room) == [record] + ReadRecords(file, next, room - 1)
    ensures !ok ==> ReadRecords(file, pos, room) == []
  {
    record := TokenRecord(F32_ZERO, []);
    next := pos;
    if pos + 4 > |file| {
      return false, record, next;
    }
    var score := U32At(file, pos);
    if pos + 8 > |file| {
      return false, record, next;
    }
    var len := U32At(file, pos + 4);
    if len > MAX_TOKEN_BYTES {
      return false, record, next;
    }
    if pos + 8 + len > |file| {
      return false, record, next;
    }
    record := TokenRecord(score, file[pos + 8..pos + 8 + len]);
    next := pos + 8 + len;
    ReadRecordsStep(file, pos, room, record, ReadRecords(file, next, room - 1));
    ok := true;
  }

  /**
   * `qwen3_tokenizer_load`, given the file's bytes: the header, then
   * records into a table of 32000 entries until the table is full or a
   * read comes up short. A short read is also what sets the end-of-file
   * flag the loop tests, so that test never stops it first.
   */
  method Load(file: seq<byte>) returns (r: Option<Tokenizer>)
    ensures r == Loaded(file)
  {
    if |file| < HEADER_BYTES {
      return None;
    }
    var bos := U32At(file, 4);
    var eos := U32At(file, 8);
    var vocab := new Option<seq<byte>>[VOCAB_SIZE](_ => None);
    var scores := new f32[VOCAB_SIZE](_ => F32_ZERO);
    var count := 0;
    var pos: nat := HEADER_BYTES;
    ghost var read: seq<TokenRecord> := [];
    ghost var total := ReadRecords(file, HEADER_BYTES, VOCAB_SIZE);
    ghost var room: nat := VOCAB_SIZE;
    while count < VOCAB_SIZE
      invariant count <= VOCAB_SIZE && count == |read| && room == VOCAB_SIZE - count
      invariant total == read + ReadRecords(file, pos, room)
      invariant Filled(vocab[..], scores[..], read)
    {
      var ok, record, next := ReadRecord(file, pos, room);
      if !ok {
        break;
      }
      ReadOneMore(total, read, record, ReadRecords(file, pos, room), ReadRecords(file, next, room - 1));
      Store(vocab, scores, count, record, read);
      read := read + [record];
      count := count + 1;
      pos := next;
      room := room - 1;
    }
    assert read + ReadRecords(file, pos, room) == read;
    TablesOf(vocab[..], scores[..], read);
    r := Some(Tokenizer(vocab[..], scores[..], VOCAB_SIZE, bos, eos, bos, bos));
  }

  // -----------------------------------------------------------------------
  // Encoding

  /** The separators `strtok` is given: space, tab and newline. */
  predicate IsDelimiter(b: byte)
  {
    b == 32 || b == 9 || b == 10
  }

  predicate NoDelimiter(w: seq<byte>)
  {
    forall j :: 0 <= j < |w| ==> !IsDelimiter(w[j])
  }

  /** The longest front of `s` without a separator. */
  function WordPrefix(s: seq<byte>): (r: seq<byte>)
    ensures NoDelimiter(r) && r <= s
    ensures |r| < |s| ==> IsDelimiter(s[|r|])
  {
    if s == [] || IsDelimiter(s[0]) then [] else [s[0]] + WordPrefix(s[1..])
  }

  /** The words `strtok` returns one by one: the maximal runs of non-separators, in order. */
  function SplitWords(s: seq<byte>): (r: seq<seq<byte>>)
    decreases |s|
    ensures forall i :: 0 <= i < |r| ==> r[i] != [] && NoDelimiter(r[i])
  {
    if s == [] then []
    else if IsDelimiter(s[0]) then SplitWords(s[1..])
    else
      var w := WordPrefix(s);
      [w] + SplitWords(s[|w|..])
  }

  /** A separator ends the word in front of it. */
  lemma {:induction false} WordPrefixBeforeDelimiter(a: seq<byte>, d: byte, b: seq<byte>)
    requires IsDelimiter(d)
    ensures WordPrefix(a + [d] + b) == WordPrefix(a)
  {
    if a == [] {
      assert (a + [d] + b)[0] == d;
    } else if !IsDelimiter(a[0]) {
      assert (a + [d] + b)[1..] == a[1..] + [d] + b;
      WordPrefixBeforeDelimiter(a[1..], d, b);
    }
  }

  /** Splitting around a separator splits each side. */
  lemma {:induction false} SplitWordsAppend(a: seq<byte>, d: byte, b: seq<byte>)
    requires IsDelimiter(d)
    ensures SplitWords(a + [d] + b) == SplitWords(a) + SplitWords(b)
    decreases |a|
  {
    var s := a + [d] + b;
    if a == [] {
      assert s[1..] == b;
    } else if IsDelimiter(a[0]) {
      assert s[1..] == a[1..] + [d] + b;
      SplitWordsAppend(a[1..], d, b);
    } else {
      var w := WordPrefix(s);
      WordPrefixBeforeDelimiter(a, d, b);
      assert s[|w|..] == a[|w|..] + [d] + b;
      SplitWordsAppend(a[|w|..], d, b);
    }
  }

  /** A non-empty run without separators is one word. */
  lemma {:induction false} SplitOneWord(w: seq<byte>)
    requires w != [] && NoDelimiter(w)
    ensures WordPrefix(w) == w
    ensures SplitWords(w) == [w]
  {
    if |w| > 1 {
      SplitOneWord(w[1..]);
    } else {
      assert WordPrefix(w[1..]) == [];
    }
    assert [w[0]] + w[1..] == w;
    assert w[|w|..] == [];
  }

  /** Words joined by one separator each. */
  function JoinWords(ws: seq<seq<byte>>, d: byte): seq<byte>
  {
    if ws == [] then []
    else if |ws| == 1 then ws[0]
    else ws[0] + [d] + JoinWords(ws[1..], d)
  }

  /** Splitting undoes joining, for words that are non-empty and free of separators. */
  lemma {:induction false} SplitJoinWords(ws: seq<seq<byte>>, d: byte)
    requires IsDelimiter(d)
    requires forall i :: 0 <= i < |ws| ==> ws[i] != [] && NoDelimiter(ws[i])
    ensures SplitWords(JoinWords(ws, d)) == ws
  {
    if |ws| == 1 {
      SplitOneWord(ws[0]);
    } else if |ws| > 1 {
      SplitJoinWords(ws[1..], d);
      SplitWordsAppend(ws[0], d, JoinWords(ws[1..], d));
      SplitOneWord(ws[0]);
      assert ws == [ws[0]] + ws[1..];
    }
  }

  /** The djb2 recurrence over unbounded integers: start at 5381, then `h * 33 + byte` for each byte. */
  function Djb2Wide(w: seq<byte>): nat
  {
    if w == [] then 5381 else Djb2Wide(w[..|w| - 1]) * 33 + w[|w| - 1]
  }

  /**
   * The djb2 hash in unsigned 32-bit arithmetic, reducing after every byte:
   * the same as running the recurrence unbounded and reducing once.
   */
  function Djb2(w: seq<byte>): (r: u32)
    ensures r == WrapU32(Djb2Wide(w))
  {
    if w == [] then 5381
    else
      var h := Djb2(w[..|w| - 1]);
      WrapMulAdd(Djb2Wide(w[..|w| - 1]), 33, w[|w| - 1]);
      WrapU32(h * 33 + w[|w| - 1])
  }

  /** `((x mod 2^32) * m + y)` and `x * m + y` agree modulo 2^32. */
  lemma WrapMulAdd(x: nat, m: nat, y: nat)
    ensures WrapU32(WrapU32(x) * m + y) == WrapU32(x * m + y)
  {
    var q := x / U32_LIMIT;
    var w := WrapU32(x);
    assert x == q * U32_LIMIT + w;
    assert x * m + y == (q * m) * U32_LIMIT + (w * m + y);
  }

  /** `(x mod 2^32) + y` and `x + y` agree modulo 2^32. */
  lemma WrapAddWrap(x: nat, y: nat)
    ensures WrapU32(WrapU32(x) + y) == WrapU32(x + y)
  {
    var q := x / U32_LIMIT;
    assert x == q * U32_LIMIT + WrapU32(x);
    assert x + y == q * U32_LIMIT + (WrapU32(x) + y);
  }

  /**
   * The hash loop of `qwen3_tokenizer_encode`, as written: a shift by five
   * plus the hash itself, then the byte, in `unsigned int`.
   */
  method HashWord(w: seq<byte>) returns (hash: u32)
    ensures hash == Djb2(w)
  {
    hash := 5381;
    for i := 0 to |w|
      invariant hash == Djb2(w[..i])
    {
      assert w[..i + 1][..i] == w[..i];
      WrapAddWrap(hash * 32, hash + w[i]);
      hash := WrapU32(WrapU32(hash * 32) + hash + w[i]);
    }
    assert w[..|w|] == w;
  }

  /** A word's id: its hash reduced modulo the vocabulary size. */
  function WordId(w: seq<byte>, vocabSize: nat): (r: nat)
    requires vocabSize > 0
    ensures r < vocabSize
  {
    Djb2(w) % vocabSize
  }

  /** The ids of `words`, one per word, in order. */
  function WordIds(words: seq<seq<byte>>, vocabSize: nat): (r: seq<nat>)
    requires vocabSize > 0
    ensures |r| == |words|
    ensures forall i :: 0 <= i < |r| ==> r[i] == WordId(words[i], vocabSize) && r[i] < vocabSize
  {
    if words == [] then [] else [WordId(words[0], vocabSize)] + WordIds(words[1..], vocabSize)
  }

  /**
   * `qwen3_tokenizer_encode`: a missing text, or one with no words, gives
   * no tokens; otherwise one id per word, in order, each below the
   * vocabulary size.
   */
  method Encode(t: Tokenizer, text: Option<seq<byte>>) returns (count: nat, tokens: seq<nat>)
    requires t.vocabSize > 0
    ensures text.None? ==> count == 0 && tokens == []
    ensures text.Some? ==> count == |SplitWords(text.value)|
    ensures |tokens| == count
    ensures forall i :: 0 <= i < count ==> tokens[i] < t.vocabSize
    ensures text.Some? ==> tokens == WordIds(SplitWords(text.value), t.vocabSize)
  {
    if text.None? {
      return 0, [];
    }
    var words := SplitWords(text.value);
    if |words| == 0 {
      return 0, [];
    }
    tokens := [];
    for idx := 0 to |words|
      invariant |tokens| == idx
      invariant forall i :: 0 <= i < idx ==> tokens[i] == WordId(words[i], t.vocabSize)
    {
      var hash := HashWord(words[idx]);
      tokens := tokens + [hash % t.vocabSize];
    }
    assert tokens == WordIds(words, t.vocabSize);
    count := |tokens|;
  }

  // -----------------------------------------------------------------------
  // Decoding

  /** `qwen3_tokenizer_decode`: the entry of an id inside the table, nothing outside it. */
  function Decode(t: Tokenizer, id: int): (r: Option<seq<byte>>)
    requires WellFormed(t)
    ensures r.Some? ==> 0 <= id < t.vocabSize && t.vocab[id] == r
    ensures 0 <= id < t.vocabSize ==> r == t.vocab[id]
    ensures id < 0 || id >= t.vocabSize ==> r.None?
  {
    if id < 0 || id >= t.vocabSize then None else t.vocab[id]
  }

  /** The bytes of `s` before its first zero byte, as `strlen` and `strcat` see it. */
  function CString(s: seq<byte>): (r: seq<byte>)
    ensures r <= s && 0 !in r
    ensures |r| < |s| ==> s[|r|] == 0
  {
    if s == [] || s[0] == 0 then [] else [s[0]] + CString(s[1..])
  }

  predicate InTable(t: Tokenizer, id: int)
  {
    0 <= id < t.vocabSize
  }

  /** Every id of `tokens` inside the table has an entry (`strlen` of a NULL entry is undefined). */
  predicate EntriesPresent(t: Tokenizer, tokens: seq<int>)
    requires WellFormed(t)
  {
    forall i :: 0 <= i < |tokens| && InTable(t, tokens[i]) ==> t.vocab[tokens[i]].Some?
  }

  /** What token `i` of `tokens` contributes: its text and, unless it is the last token, a space. */
  function Piece(t: Tokenizer, tokens: seq<int>, i: nat): seq<byte>
    requires WellFormed(t) && EntriesPresent(t, tokens) && i < |tokens|
  {
    if InTable(t, tokens[i]) then
      CString(t.vocab[tokens[i]].value) + (if i < |tokens| - 1 then [32 as byte] else [])
    else []
  }

  /** The decoded text of the first `k` tokens. */
  function Joined(t: Tokenizer, tokens: seq<int>, k: nat): seq<byte>
    requires WellFormed(t) && EntriesPresent(t, tokens) && k <= |tokens|
  {
    if k == 0 then [] else Joined(t, tokens, k - 1) + Piece(t, tokens, k - 1)
  }

  /** The buffer size counted for the first `k` tokens: each text in the table plus one. */
  function Needed(t: Tokenizer, tokens: seq<int>, k: nat): nat
    requires WellFormed(t) && EntriesPresent(t, tokens) && k <= |tokens|
  {
    if k == 0 then 0
    else Needed(t, tokens, k - 1) + (if InTable(t, tokens[k - 1]) then |CString(t.vocab[tokens[k - 1]].value)| + 1 else 0)
  }

  /** The text never outgrows the count, so with the terminator it fits the buffer. */
  lemma {:induction false} JoinedFits(t: Tokenizer, tokens: seq<int>, k: nat)
    requires WellFormed(t) && EntriesPresent(t, tokens) && k <= |tokens|
    ensures |Joined(t, tokens, k)| <= Needed(t, tokens, k)
  {
    if k > 0 {
      JoinedFits(t, tokens, k - 1);
      var piece := Piece(t, tokens, k - 1);
      assert Joined(t, tokens, k) == Joined(t, tokens, k - 1) + piece;
      if InTable(t, tokens[k - 1]) {
        assert |piece| <= |CString(t.vocab[tokens[k - 1]].value)| + 1;
      } else {
        assert piece == [];
      }
    }
  }

  /** Ids outside the table contribute nothing, and neither their text nor a space. */
  lemma {:induction false} JoinedSkipsUnknown(t: Tokenizer, tokens: seq<int>, k: nat)
    requires WellFormed(t) && EntriesPresent(t, tokens) && k <= |tokens|
    requires forall i :: 0 <= i < k ==> !InTable(t, tokens[i])
    ensures Joined(t, tokens, k) == [] && Needed(t, tokens, k) == 0
  {
    if k > 0 {
      JoinedSkipsUnknown(t, tokens, k - 1);
    }
  }

  /**
   * `qwen3_tokenizer_decode_sequence`: no tokens give nothing; otherwise
   * the buffer size is counted first, then the texts are concatenated,
   * each but the last followed by a space, skipping ids outside the table.
   */
  method DecodeSequence(t: Tokenizer, tokens: seq<int>) returns (r: Option<seq<byte>>, bufferSize: nat)
    requires WellFormed(t) && EntriesPresent(t, tokens)
    ensures r.None? <==> tokens == []
    ensures r.Some? ==> r.value == Joined(t, tokens, |tokens|)
    ensures r.Some? ==> bufferSize == Needed(t, tokens, |tokens|) + 1 && |r.value| < bufferSize
  {
    if tokens == [] {
      return None, 0;
    }
    var total := 0;
    for i := 0 to |tokens|
      invariant total == Needed(t, tokens, i)
    {
      if 0 <= tokens[i] < t.vocabSize {
        total := total + |CString(t.vocab[tokens[i]].value)| + 1;
      }
    }
    bufferSize := total + 1;
    var result := [];
    for i := 0 to |tokens|
      invariant result == Joined(t, tokens, i)
    {
      if 0 <= tokens[i] < t.vocabSize {
        result := result + CString(t.vocab[tokens[i]].value);
        if i < |tokens| - 1 {
          result := result + [32];
        }
      }
    }
    JoinedFits(t, tokens, |tokens|);
    r := Some(result);
  }

  /**
   * `qwen3_tokenizer_get_special_token`: the four names give their ids
   * (converted to a signed `int`), anything else -1.
   */
  function SpecialToken(t: Tokenizer, name: string): (r: int)
    ensures name == "bos" ==> r == I32FromBits(t.bosTokenId)
    ensures name == "eos" ==> r == I32FromBits(t.eosTokenId)
    ensures name == "pad" ==> r == I32FromBits(t.padTokenId)
    ensures name == "unk" ==> r == I32FromBits(t.unkTokenId)
    ensures name !in {"bos", "eos", "pad", "unk"} ==> r == -1
  {
    if name == "bos" then I32FromBits(t.bosTokenId)
    else if name == "eos" then I32FromBits(t.eosTokenId)
    else if name == "pad" then I32FromBits(t.padTokenId)
    else if name == "unk" then I32FromBits(t.unkTokenId)
    else -1
  }

  /** After loading, padding and unknown answer the begin id. */
  lemma LoadedSpecialTokens(file: seq<byte>)
    requires Loaded(file).Some?
    ensures SpecialToken(Loaded(file).value, "pad") == SpecialToken(Loaded(file).value, "bos")
    ensures SpecialToken(Loaded(file).value, "unk") == SpecialToken(Loaded(file).value, "bos")
    ensures SpecialToken(Loaded(file).value, "eos") == I32FromBits(U32At(file, 8))
  {
  }
}
