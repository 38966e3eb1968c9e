/**
 * The command-line tool's model discovery and export checks: expanding
 * the directory argument, listing the `.bin` files of a directory with a
 * format and an age label, sorting them by name, labelling their path in
 * the table, and the checks `export` makes before it starts.
 */
module CliModels {
  import opened Wrappers
  import opened Bytes
  import opened Text
  import Arithmetic
  import Quantization

  // ---------------------------------------------------------------------
  // Path expansion

  /** Rust `replacen(pat, rep, 1)`: the first occurrence of `pat` replaced, or `s` unchanged. */
  function ReplaceFirst(s: string, pat: string, rep: string): (r: string)
    requires pat != []
    decreases |s|
  {
    if |s| < |pat| then s
    else if s[..|pat|] == pat then rep + s[|pat|..]
    else [s[0]] + ReplaceFirst(s[1..], pat, rep)
  }

  /** A string without the pattern is left as it is. */
  lemma {:induction false} ReplaceFirstAbsent(s: string, pat: string, rep: string)
    requires pat != [] && !Contains(s, pat)
    ensures ReplaceFirst(s, pat, rep) == s
    decreases |s|
  {
    if |s| >= |pat| {
      assert !OccursAt(s, pat, 0);
      forall i | 0 <= i <= |s[1..]|
        ensures !OccursAt(s[1..], pat, i)
      {
        if OccursAt(s[1..], pat, i) {
          assert s[i + 1..i + 1 + |pat|] == s[1..][i..i + |pat|];
          assert OccursAt(s, pat, i + 1);
        }
      }
      ReplaceFirstAbsent(s[1..], pat, rep);
    }
  }

  /** A string that starts with the pattern has that occurrence replaced. */
  lemma ReplaceFirstAtStart(s: string, pat: string, rep: string)
    requires pat != [] && StartsWith(s, pat)
    ensures ReplaceFirst(s, pat, rep) == rep + s[|pat|..]
  {
  }

  /** `$HOME` from the environment, or "." when it is unset or not valid Unicode. */
  function HomeDir(home: Option<string>): string
  {
    home.UnwrapOr(".")
  }

  /**
   * `discover_models`' expansion of its directory argument: a leading
   * "~/" has its "~" replaced by the home directory, otherwise a leading
   * "$HOME" is replaced by it; any other argument is kept.
   */
  function ExpandPath(directory: string, home: Option<string>): (r: string)
    ensures StartsWith(directory, "~/") ==> r == HomeDir(home) + directory[1..]
    ensures !StartsWith(directory, "~/") && StartsWith(directory, "$HOME") ==> r == HomeDir(home) + directory[5..]
    ensures !StartsWith(directory, "~/") && !StartsWith(directory, "$HOME") ==> r == directory
  {
    if StartsWith(directory, "~/") then
      ReplaceFirstAtStart(directory, "~", HomeDir(home));
      ReplaceFirst(directory, "~", HomeDir(home))
    else if StartsWith(directory, "$HOME") then
      ReplaceFirstAtStart(directory, "$HOME", HomeDir(home));
      ReplaceFirst(directory, "$HOME", HomeDir(home))
    else directory
  }

  /** A path that mentions neither form of the home directory is never rewritten. */
  lemma ExpandPathKeepsPlainPaths(directory: string, home: Option<string>)
    requires !Contains(directory, "~") && !Contains(directory, "$HOME")
    ensures ExpandPath(directory, home) == directory
  {
    if StartsWith(directory, "~/") {
      assert OccursAt(directory, "~", 0);
    } else if StartsWith(directory, "$HOME") {
      assert OccursAt(directory, "$HOME", 0);
    }
  }

  // ---------------------------------------------------------------------
  // File names

  /** The index of the last '.' in `name`, if any. */
  function LastDot(name: string): (r: Option<nat>)
    ensures r.Some? ==> r.value < |name| && name[r.value] == '.'
    ensures r.Some? ==> forall j :: r.value < j < |name| ==> name[j] != '.'
    ensures r.None? ==> forall j :: 0 <= j < |name| ==> name[j] != '.'
    decreases |name|
  {
    if name == [] then None
    else if name[|name| - 1] == '.' then Some(|name| - 1)
    else LastDot(name[..|name| - 1])
  }

  /**
   * Rust's split of a file name into stem and extension: at the last '.',
   * except that ".." and a name whose only dot leads it have no extension
   * and are their own stem.
   */
  function SplitExtension(name: string): (r: (string, Option<string>))
    ensures r.1.None? ==> r.0 == name
    ensures r.1.Some? ==> r.0 != [] && name == r.0 + "." + r.1.value && '.' !in r.1.value
  {
    if name == ".." then (name, None)
    else
      match LastDot(name)
      case None => (name, None)
      case Some(i) =>
        if i == 0 then (name, None)
        else
          assert name == name[..i] + "." + name[i + 1..];
          (name[..i], Some(name[i + 1..]))
  }

  function Extension(name: string): Option<string>
  {
    SplitExtension(name).1
  }

  function Stem(name: string): string
  {
    SplitExtension(name).0
  }

  /** A dot with no dot behind it is the last one. */
  lemma {:induction false} LastDotAt(name: string, k: nat)
    requires k < |name| && name[k] == '.'
    requires forall j :: k < j < |name| ==> name[j] != '.'
    ensures LastDot(name) == Some(k)
    decreases |name|
  {
    if k < |name| - 1 {
      var init := name[..|name| - 1];
      assert init[k] == '.';
      LastDotAt(init, k);
    }
  }

  /** A stem followed by a non-empty, dot-free extension splits back into the two. */
  lemma SplitExtensionRoundTrip(stem: string, ext: string)
    requires stem != [] && ext != [] && '.' !in ext
    ensures SplitExtension(stem + "." + ext) == (stem, Some(ext))
  {
    var name := stem + "." + ext;
    assert name[|stem|] == '.';
    forall j | |stem| < j < |name|
      ensures name[j] != '.'
    {
      assert name[j] == ext[j - |stem| - 1];
    }
    LastDotAt(name, |stem|);
    assert |name| >= 3;
    assert name[..|stem|] == stem && name[|stem| + 1..] == ext;
  }

  // ---------------------------------------------------------------------
  // Labels

  /** The format column: the first of "int4", "int8", "fp16" the name contains decides. */
  function FormatLabel(name: string): (r: string)
    ensures r == "INT4" <==> Contains(name, "int4")
    ensures r == "INT8" <==> !Contains(name, "int4") && Contains(name, "int8")
    ensures r == "FP16" <==> !Contains(name, "int4") && !Contains(name, "int8") && Contains(name, "fp16")
    ensures r == "BINARY" <==> !Contains(name, "int4") && !Contains(name, "int8") && !Contains(name, "fp16")
  {
    if Contains(name, "int4") then "INT4"
    else if Contains(name, "int8") then "INT8"
    else if Contains(name, "fp16") then "FP16"
    else "BINARY"
  }

  /** Every occurrence of a four-letter pattern starts with its first letter. */
  lemma OccursAtHead(s: string, pat: string, i: int)
    requires |pat| == 4 && OccursAt(s, pat, i)
    ensures s[i] == pat[0] && s[i + 1] == pat[1]
  {
    assert s[i..i + 4][0] == s[i] && s[i..i + 4][1] == s[i + 1];
  }

  /**
   * A name holding only a group-size level's printed form occurs only at its start:
   * a digit, '-', 'g' or 's' cannot begin "int4", "int8" or "fp16".
   */
  lemma GroupedNameContains(s: string, digits: string, pat: string)
    requires AllDigits(digits) && |s| == 7 + |digits| && s[4..7] == "-gs" && s[7..] == digits
    requires s[..4] == "int4" || s[..4] == "int8"
    requires pat == "int4" || pat == "int8" || pat == "fp16"
    ensures Contains(s, pat) <==> s[..4] == pat
  {
    if Contains(s, pat) {
      forall j | 1 <= j < |s|
        ensures s[j] != 'i' && s[j] != 'f'
      {
        if j >= 7 {
          assert s[j] == digits[j - 7];
        } else if j >= 4 {
          assert s[j] == "-gs"[j - 4];
        } else {
          assert s[j] == s[..4][j];
        }
      }
      var i :| 0 <= i <= |s| && OccursAt(s, pat, i);
      OccursAtHead(s, pat, i);
      assert i == 0;
    } else {
      assert !OccursAt(s, pat, 0);
    }
  }

  /** A file named by its quantization level's printed form is labelled with that level. */
  lemma FormatLabelOfQuantization(q: Quantization.QuantizationLevel)
    ensures q.Int4? ==> FormatLabel(Quantization.QuantizationToString(q)) == "INT4"
    ensures q.Int8? ==> FormatLabel(Quantization.QuantizationToString(q)) == "INT8"
    ensures q.Fp16? ==> FormatLabel(Quantization.QuantizationToString(q)) == "FP16"
    ensures q.Fp32? ==> FormatLabel(Quantization.QuantizationToString(q)) == "BINARY"
  {
    var s := Quantization.QuantizationToString(q);
    match q
    case Int4(g) =>
      assert OccursAt(s, "int4", 0);
    case Int8(g) =>
      var digits := NatToString(g);
      assert s[..4] == "int8";
      assert s[4..7] == "-gs" && s[7..] == digits;
      GroupedNameContains(s, digits, "int4");
      assert OccursAt(s, "int8", 0);
    case Fp16 =>
      assert s == "fp16";
      assert s[..4][0] == 'f' && "int4"[0] == 'i' && "int8"[0] == 'i';
      assert !OccursAt(s, "int4", 0) && !OccursAt(s, "int8", 0);
      assert OccursAt(s, "fp16", 0);
    case Fp32 =>
      assert s == "fp32";
      assert s[..4][0] == 'f' && "int4"[0] == 'i' && "int8"[0] == 'i';
      assert s[..4][2] == '3' && "fp16"[2] == '1';
      assert !OccursAt(s, "int4", 0) && !OccursAt(s, "int8", 0) && !OccursAt(s, "fp16", 0);
  }

  /** Rust `u64::saturating_sub`. */
  function SaturatingSub(a: u64, b: u64): (r: u64)
    ensures a >= b ==> r + b == a
    ensures a < b ==> r == 0
  {
    if a >= b then a - b else 0
  }

  /** How a file of age `age` seconds is counted: whole minutes below an hour, whole hours below a day, whole days beyond. */
  function AgeScale(age: nat): (r: (nat, string))
    requires age >= 60
    ensures var unit := if r.1 == "m ago" then 60 else if r.1 == "h ago" then 3600 else 86400;
      r.1 in {"m ago", "h ago", "d ago"} && 1 <= r.0 && r.0 * unit <= age < (r.0 + 1) * unit
    ensures r.1 == "m ago" <==> age < 3600
    ensures r.1 == "m ago" ==> r.0 < 60
    ensures r.1 == "h ago" <==> 3600 <= age < 86400
    ensures r.1 == "h ago" ==> r.0 < 24
  {
    if age < 3600 then
      Arithmetic.DivBounds(age, 60);
      (age / 60, "m ago")
    else if age < 86400 then
      Arithmetic.DivBounds(age, 3600);
      (age / 3600, "h ago")
    else
      Arithmetic.DivBounds(age, 86400);
      (age / 86400, "d ago")
  }

  /** The modified column: the file's age in the largest unit that fits, or "just now" under a minute. */
  function AgeLabel(now: u64, mtime: u64): (r: string)
    ensures r == "just now" <==> SaturatingSub(now, mtime) < 60
    ensures SaturatingSub(now, mtime) >= 60 ==>
      var scale := AgeScale(SaturatingSub(now, mtime)); r == NatToString(scale.0) + scale.1
  {
    var age := SaturatingSub(now, mtime);
    if age < 60 then "just now"
    else
      var scale := AgeScale(age);
      assert (NatToString(scale.0) + scale.1)[0] != 'j';
      NatToString(scale.0) + scale.1
  }

  /** A timestamp in the future, or within the last minute, reads "just now". */
  lemma RecentFilesAreJustNow(now: u64, mtime: u64)
    requires mtime + 60 > now
    ensures AgeLabel(now, mtime) == "just now"
  {
  }

  /** The table's path column. */
  function PathLabel(path: string): (r: string)
    ensures r == "HF" <==> Contains(path, "HuggingFace")
    ensures r == "custom" <==> !Contains(path, "HuggingFace")
  {
    if Contains(path, "HuggingFace") then "HF" else "custom"
  }

  /** Every model under an expanded "~/HuggingFace/" directory is shown as a Hugging Face one. */
  lemma DefaultDirectoryIsHuggingFace(home: Option<string>, rest: string)
    ensures PathLabel(ExpandPath("~/HuggingFace/" + rest, home)) == "HF"
  {
    var d := "~/HuggingFace/" + rest;
    assert StartsWith(d, "~/");
    var p := ExpandPath(d, home);
    var at := |HomeDir(home)| + 1;
    assert d[1..] == "/HuggingFace/" + rest;
    assert p == HomeDir(home) + "/HuggingFace/" + rest;
    assert p[at..at + 11] == ("/HuggingFace/" + rest)[1..12];
    assert OccursAt(p, "HuggingFace", at);
  }

  // ---------------------------------------------------------------------
  // Discovery

  /** What the file system says about an entry: its length, and its modification time if the platform gives one. */
  datatype Metadata = Metadata(len: u64, modified: Option<u64>)

  /** A directory entry: its full path, its file name, and its metadata if it could be read. */
  datatype Entry = Entry(path: string, fileName: string, metadata: Option<Metadata>)

  datatype ModelInfo = ModelInfo(name: string, path: string, size: u64, format: string, modified: string)

  /** The modified column of an entry: its age, or "unknown" without a modification time. */
  function ModifiedLabel(m: Metadata, now: u64): string
  {
    match m.modified
    case Some(t) => AgeLabel(now, t)
    case None => "unknown"
  }

  /** An entry is listed when its extension is exactly "bin" and its metadata could be read. */
  predicate Listable(e: Entry)
  {
    Extension(e.fileName) == Some("bin") && e.metadata.Some?
  }

  function Describe(e: Entry, now: u64): (r: ModelInfo)
    requires Listable(e)
    ensures r.name == Stem(e.fileName) && r.path == e.path && r.size == e.metadata.value.len
    ensures r.format == FormatLabel(r.name)
  {
    var name := Stem(e.fileName);
    ModelInfo(name, e.path, e.metadata.value.len, FormatLabel(name), ModifiedLabel(e.metadata.value, now))
  }

  /** The models the scan pushes, in directory order. */
  function Listed(entries: seq<Entry>, now: u64): seq<ModelInfo>
    decreases |entries|
  {
    if entries == [] then []
    else
      var last := entries[|entries| - 1];
      Listed(entries[..|entries| - 1], now) + (if Listable(last) then [Describe(last, now)] else [])
  }

  /** Every listable entry is described among the listed models. */
  lemma {:induction false} ListedComplete(entries: seq<Entry>, now: u64, i: nat)
    requires i < |entries| && Listable(entries[i])
    ensures Describe(entries[i], now) in Listed(entries, now)
    decreases |entries|
  {
    var init := entries[..|entries| - 1];
    if i < |entries| - 1 {
      assert init[i] == entries[i];
      ListedComplete(init, now, i);
    }
  }

  /** Every listed model describes a listable entry. */
  lemma {:induction false} ListedSound(entries: seq<Entry>, now: u64, k: nat)
    requires k < |Listed(entries, now)|
    ensures exists i :: 0 <= i < |entries| && Listable(entries[i]) && Listed(entries, now)[k] == Describe(entries[i], now)
    decreases |entries|
  {
    var init, last := entries[..|entries| - 1], entries[|entries| - 1];
    if k < |Listed(init, now)| {
      ListedSound(init, now, k);
      var i :| 0 <= i < |init| && Listable(init[i]) && Listed(init, now)[k] == Describe(init[i], now);
      assert entries[i] == init[i];
    } else {
      assert Listed(entries, now)[k] == Describe(last, now);
    }
  }

  /** A file name that is a stem plus ".bin" is listed under that stem. */
  lemma BinFileListed(stem: string, path: string, meta: Metadata, now: u64)
    requires stem != [] && '.' !in stem
    ensures Listable(Entry(path, stem + ".bin", Some(meta)))
    ensures Describe(Entry(path, stem + ".bin", Some(meta)), now).name == stem
  {
    assert stem + ".bin" == stem + "." + "bin";
    SplitExtensionRoundTrip(stem, "bin");
  }

  /** `a` sorts strictly before `b` in Rust's `String` order (by code point, a proper prefix first). */
  predicate Less(a: string, b: string)
    decreases |a|
  {
    if a == [] then b != []
    else if b == [] then false
    else if a[0] != b[0] then a[0] < b[0]
    else Less(a[1..], b[1..])
  }

  lemma {:induction false} LessTransitive(a: string, b: string, c: string)
    requires Less(a, b) && Less(b, c)
    ensures Less(a, c)
    decreases |a|
  {
    if a != [] && a[0] == b[0] && b[0] == c[0] {
      LessTransitive(a[1..], b[1..], c[1..]);
    }
  }

  lemma {:induction false} LessIrreflexive(a: string)
    ensures !Less(a, a)
    decreases |a|
  {
    if a != [] {
      LessIrreflexive(a[1..]);
    }
  }

  /** No model is followed by one whose name sorts before it. */
  predicate SortedByName(ms: seq<ModelInfo>)
  {
    forall i, j :: 0 <= i < j < |ms| ==> !Less(ms[j].name, ms[i].name)
  }

  /** Insertion behind every model that does not sort after `m`, which keeps the sort stable. */
  function InsertByName(m: ModelInfo, sorted: seq<ModelInfo>): (r: seq<ModelInfo>)
    ensures multiset(r) == multiset(sorted) + multiset{m}
    decreases |sorted|
  {
    if sorted == [] then [m]
    else if Less(m.name, sorted[0].name) then [m] + sorted
    else
      assert sorted == [sorted[0]] + sorted[1..];
      [sorted[0]] + InsertByName(m, sorted[1..])
  }

  /** A model sorting before the head of a sorted list can lead it. */
  lemma PrependSorted(m: ModelInfo, sorted: seq<ModelInfo>)
    requires SortedByName(sorted) && sorted != [] && Less(m.name, sorted[0].name)
    ensures SortedByName([m] + sorted)
  {
    var r := [m] + sorted;
    forall i, j | 0 <= i < j < |r|
      ensures !Less(r[j].name, r[i].name)
    {
      if i == 0 {
        var x := sorted[j - 1];
        assert r[j] == x;
        if j == 1 {
          LessIrreflexive(x.name);
        }
        if Less(x.name, m.name) {
          LessTransitive(x.name, m.name, sorted[0].name);
        }
      } else {
        assert r[i] == sorted[i - 1] && r[j] == sorted[j - 1];
      }
    }
  }

  /** A head that sorts no later than anything in a sorted tail can lead it. */
  lemma ConsSorted(head: ModelInfo, tail: seq<ModelInfo>)
    requires SortedByName(tail)
    requires forall x :: x in multiset(tail) ==> !Less(x.name, head.name)
    ensures SortedByName([head] + tail)
  {
    var r := [head] + tail;
    forall i, j | 0 <= i < j < |r|
      ensures !Less(r[j].name, r[i].name)
    {
      if i == 0 {
        assert r[j] == tail[j - 1];
        assert r[j] in multiset(tail);
      } else {
        assert r[i] == tail[i - 1] && r[j] == tail[j - 1];
      }
    }
  }

  lemma {:induction false} InsertKeepsSorted(m: ModelInfo, sorted: seq<ModelInfo>)
    requires SortedByName(sorted)
    ensures SortedByName(InsertByName(m, sorted))
    decreases |sorted|
  {
    if sorted == [] {
    } else if Less(m.name, sorted[0].name) {
      PrependSorted(m, sorted);
    } else {
      var head, rest := sorted[0], sorted[1..];
      assert SortedByName(rest) by {
        forall i, j | 0 <= i < j < |rest|
          ensures !Less(rest[j].name, rest[i].name)
        {
          assert rest[i] == sorted[i + 1] && rest[j] == sorted[j + 1];
        }
      }
      InsertKeepsSorted(m, rest);
      forall x | x in multiset(InsertByName(m, rest))
        ensures !Less(x.name, head.name)
      {
        if x != m {
          assert x in multiset(rest);
          var k :| 0 <= k < |rest| && rest[k] == x;
          assert sorted[k + 1] == x;
        }
      }
      ConsSorted(head, InsertByName(m, rest));
    }
  }

  /** `sort_by` on the names: stable insertion, last model first into place. */
  function SortByName(ms: seq<ModelInfo>): (r: seq<ModelInfo>)
    ensures multiset(r) == multiset(ms)
    decreases |ms|
  {
    if ms == [] then []
    else
      assert ms == ms[..|ms| - 1] + [ms[|ms| - 1]];
      InsertByName(ms[|ms| - 1], SortByName(ms[..|ms| - 1]))
  }

  /** The sort leaves no model before one whose name sorts before it. */
  lemma {:induction false} SortByNameSorted(ms: seq<ModelInfo>)
    ensures SortedByName(SortByName(ms))
    decreases |ms|
  {
    if ms != [] {
      SortByNameSorted(ms[..|ms| - 1]);
      InsertKeepsSorted(ms[|ms| - 1], SortByName(ms[..|ms| - 1]));
    }
  }

  /**
   * `discover_models`: the directory argument is expanded; a path that
   * does not exist is an error; otherwise the `.bin` entries of the
   * listing are described in directory order and then sorted by name. An
   * unreadable directory lists nothing.
   */
  method DiscoverModels(directory: string, home: Option<string>, existing: set<string>,
                        listing: Option<seq<Entry>>, now: u64)
    returns (r: Result<seq<ModelInfo>, string>)
    ensures ExpandPath(directory, home) !in existing <==> r.Err?
    ensures r.Err? ==> r.error == "Directory does not exist: " + ExpandPath(directory, home)
    ensures r.Ok? ==> r.value == SortByName(Listed(listing.UnwrapOr([]), now))
  {
    var expanded := ExpandPath(directory, home);
    if expanded !in existing {
      return Err("Directory does not exist: " + expanded);
    }
    var models: seq<ModelInfo> := [];
    if listing.Some? {
      var entries := listing.value;
      var i := 0;
      while i < |entries|
        invariant i <= |entries|
        invariant models == Listed(entries[..i], now)
      {
        var entry := entries[i];
        assert entries[..i + 1][..i] == entries[..i];
        if Extension(entry.fileName) == Some("bin") && entry.metadata.Some? {
          models := models + [Describe(entry, now)];
        }
        i := i + 1;
      }
      assert entries[..|entries|] == entries;
    }
    models := SortByName(models);
    r := Ok(models);
  }

  /** What discovery returns is sorted by name, holds every listable entry's description, and nothing else. */
  lemma DiscoveredModels(entries: seq<Entry>, now: u64)
    ensures SortedByName(SortByName(Listed(entries, now)))
    ensures forall i :: 0 <= i < |entries| && Listable(entries[i]) ==> Describe(entries[i], now) in SortByName(Listed(entries, now))
    ensures forall m :: m in SortByName(Listed(entries, now)) ==>
      exists i :: 0 <= i < |entries| && Listable(entries[i]) && m == Describe(entries[i], now)
  {
    var listed := Listed(entries, now);
    var sorted := SortByName(listed);
    SortByNameSorted(listed);
    forall i | 0 <= i < |entries| && Listable(entries[i])
      ensures Describe(entries[i], now) in sorted
    {
      ListedComplete(entries, now, i);
      assert Describe(entries[i], now) in multiset(listed);
    }
    forall m | m in sorted
      ensures exists i :: 0 <= i < |entries| && Listable(entries[i]) && m == Describe(entries[i], now)
    {
      assert m in multiset(sorted);
      var k :| 0 <= k < |listed| && listed[k] == m;
      ListedSound(entries, now, k);
    }
  }

  // ---------------------------------------------------------------------
  // Export checks

  predicate HasSafetensors(names: seq<string>)
  {
    exists i :: 0 <= i < |names| && Extension(names[i]) == Some("safetensors")
  }

  /**
   * `run_export_command`'s checks, in order, with `names` the entries of
   * the model directory when it exists: the group size must parse as a
   * `usize`; the directory must exist and hold "config.json",
   * "tokenizer.json" and a file with extension "safetensors". The result
   * is the group size.
   */
  function ExportChecks(modelPath: string, groupSize: string, names: Option<seq<string>>): (r: Result<nat, string>)
    ensures r.Ok? <==>
      ParseUsize(groupSize).Some? && names.Some? && "config.json" in names.value &&
      "tokenizer.json" in names.value && HasSafetensors(names.value)
    ensures r.Ok? ==> r.value == ParseUsize(groupSize).value
    ensures ParseUsize(groupSize).None? ==> r == Err("Invalid group size")
    ensures ParseUsize(groupSize).Some? && names.None? ==> r == Err("Model directory does not exist: " + modelPath)
  {
    match ParseUsize(groupSize)
    case None => Err("Invalid group size")
    case Some(g) =>
      match names
      case None => Err("Model directory does not exist: " + modelPath)
      case Some(ns) =>
        if "config.json" !in ns then Err("config.json not found in model directory")
        else if "tokenizer.json" !in ns then Err("tokenizer.json not found in model directory")
        else if !HasSafetensors(ns) then Err("No .safetensors files found in model directory")
        else Ok(g)
  }

  /** A directory with the two JSON files and a shard is accepted with any printed group size. */
  lemma ExportAcceptsCompleteDirectory(modelPath: string, g: nat, names: seq<string>, shard: string, i: nat)
    requires g < USIZE_LIMIT && shard != [] && '.' !in shard
    requires "config.json" in names && "tokenizer.json" in names && i < |names| && names[i] == shard + ".safetensors"
    ensures ExportChecks(modelPath, NatToString(g), Some(names)) == Ok(g)
  {
    ParseUsizeRoundTrip(g);
    assert shard + ".safetensors" == shard + "." + "safetensors";
    SplitExtensionRoundTrip(shard, "safetensors");
    assert Extension(names[i]) == Some("safetensors");
  }
}
