/**
 * What every completion provider shares (src/completionModel.ts, the
 * `PostOptions` type of src/codex.ts) and the cache key used by the two
 * recorded-data providers (`key` in src/mockModel.ts and src/cacheModel.ts).
 */
module CompletionModel {
  import opened Wrappers
  import opened Text

  /**
   * A sampling temperature, represented by its JavaScript decimal text
   * ("0", "0.5", ...). For a finite number that text is what both
   * `JSON.stringify` and template literals produce.
   */
  type Temperature = string

  /** `CompletionSet`: the completions in the insertion order of their JavaScript `Set`, and the tokens billed. */
  datatype CompletionSet = CompletionSet(completions: seq<string>, usedTokens: nat)

  const EmptyCompletionSet := CompletionSet([], 0)

  /** `Partial<typeof defaultPostOptions>`: `None` is an absent property. */
  datatype PostOptions = PostOptions(
    model: Option<string>,
    maxTokens: Option<int>,
    temperature: Option<Temperature>,
    n: Option<int>,
    topP: Option<Temperature>)

  /** Options carrying only a temperature: `{ temperature }`. */
  function WithTemperature(t: Temperature): PostOptions
  {
    PostOptions(None, None, Some(t), None, None)
  }

  // ------------------------------------------------------------ cache key

  function HexDigit(d: nat): char
    requires d < 16
  {
    if d < 10 then '0' + d as char else 'a' + (d - 10) as char
  }

  /** How `JSON.stringify` writes one character inside a string literal. */
  function EscapeChar(c: char): string
  {
    if c == '"' then "\\\""
    else if c == '\\' then "\\\\"
    else if c == '\U{0008}' then "\\b"
    else if c == '\t' then "\\t"
    else if c == '\n' then "\\n"
    else if c == '\U{000C}' then "\\f"
    else if c == '\r' then "\\r"
    else if c < ' ' then "\\u00" + [HexDigit(c as nat / 16), HexDigit(c as nat % 16)]
    else [c]
  }

  function Escape(s: string): string
  {
    if s == [] then "" else EscapeChar(s[0]) + Escape(s[1..])
  }

  /** `JSON.stringify(s)` for a string. */
  function JsonQuote(s: string): string
  {
    "\"" + Escape(s) + "\""
  }

  /** `key(prompt, temperature)`: `JSON.stringify([prompt, temperature])`. */
  function Key(prompt: string, temperature: Temperature): string
  {
    "[" + JsonQuote(prompt) + "," + temperature + "]"
  }

  /** Distinct (prompt, temperature) pairs never share a key. */
  lemma KeyInjective(p1: string, t1: Temperature, p2: string, t2: Temperature)
    requires Key(p1, t1) == Key(p2, t2)
    ensures p1 == p2 && t1 == t2
  {
    var s1 := KeyShape(p1, t1);
    var s2 := KeyShape(p2, t2);
    assert Escape(p1) + s1 == Key(p1, t1)[2..];
    EscapedTextDelimited(p1, s1, p2, s2);
    assert t1 == s1[2..|s1| - 1];
  }

  /** A key is `[`, the opening quote, the escaped prompt, then a quote-led rest holding the temperature. */
  lemma KeyShape(p: string, t: Temperature) returns (s: string)
    ensures s == "\"," + t + "]"
    ensures Key(p, t) == "[\"" + (Escape(p) + s)
  {
    s := "\"," + t + "]";
    var e := Escape(p);
    calc {
      Key(p, t);
      "[" + ("\"" + e + "\"") + "," + t + "]";
      { assert "[" + ("\"" + e + "\"") == "[\"" + e + "\""; }
      "[\"" + e + "\"" + "," + t + "]";
      { assert "[\"" + e + "\"" + "," == "[\"" + e + "\","; }
      "[\"" + e + "\"," + t + "]";
      "[\"" + (e + s);
    }
  }

  /** An escaped text is closed by the first unescaped quote, so it determines the text and what follows. */
  lemma {:induction false} EscapedTextDelimited(p1: string, s1: string, p2: string, s2: string)
    requires |s1| > 0 && s1[0] == '"' && |s2| > 0 && s2[0] == '"'
    requires Escape(p1) + s1 == Escape(p2) + s2
    ensures p1 == p2 && s1 == s2
    decreases |p1|
  {
    if p1 == [] && p2 == [] {
      assert s1 == Escape(p1) + s1;
    } else if p1 == [] {
      EscapedHead(p2, s2);
      assert false;
    } else if p2 == [] {
      EscapedTextDelimited(p2, s2, p1, s1);
    } else {
      EscapedFirst(p1, s1, p2, s2);
      EscapedTextDelimited(p1[1..], s1, p2[1..], s2);
      assert p1 == [p1[0]] + p1[1..];
      assert p2 == [p2[0]] + p2[1..];
    }
  }

  /** Equal escaped texts start with the same character and agree after it. */
  lemma EscapedFirst(p1: string, s1: string, p2: string, s2: string)
    requires p1 != [] && p2 != []
    requires Escape(p1) + s1 == Escape(p2) + s2
    ensures p1[0] == p2[0] && Escape(p1[1..]) + s1 == Escape(p2[1..]) + s2
  {
    EscapeCons(p1, s1);
    EscapeCons(p2, s2);
    EscapeCharPrefixFree(p1[0], Escape(p1[1..]) + s1, p2[0], Escape(p2[1..]) + s2);
    PrefixCancel(EscapeChar(p1[0]), Escape(p1[1..]) + s1, Escape(p2[1..]) + s2);
  }

  lemma EscapeCons(p: string, s: string)
    requires p != []
    ensures Escape(p) + s == EscapeChar(p[0]) + (Escape(p[1..]) + s)
  {
  }

  /** An escaped non-empty text never starts with a quote. */
  lemma EscapedHead(p: string, rest: string)
    ensures p != [] ==> |Escape(p) + rest| > 0 && (Escape(p) + rest)[0] != '"'
  {
    if p != [] {
      var e := EscapeChar(p[0]);
      assert Escape(p) + rest == e + (Escape(p[1..]) + rest);
      assert (e + (Escape(p[1..]) + rest))[0] == e[0];
    }
  }

  /** No escape sequence is a proper prefix of another one. */
  lemma EscapeCharPrefixFree(c1: char, x1: string, c2: char, x2: string)
    requires EscapeChar(c1) + x1 == EscapeChar(c2) + x2
    ensures c1 == c2
  {
    var e1, e2 := EscapeChar(c1), EscapeChar(c2);
    assert (e1 + x1)[0] == e1[0] && (e2 + x2)[0] == e2[0];
    if e1[0] == '\\' {
      assert (e1 + x1)[1] == e1[1] && (e2 + x2)[1] == e2[1];
      if e1[1] == 'u' {
        assert (e1 + x1)[4] == e1[4] && (e2 + x2)[4] == e2[4];
        assert (e1 + x1)[5] == e1[5] && (e2 + x2)[5] == e2[5];
        HexDigitInjective(c1 as nat / 16, c2 as nat / 16);
        HexDigitInjective(c1 as nat % 16, c2 as nat % 16);
      }
    }
  }

  lemma HexDigitInjective(a: nat, b: nat)
    requires a < 16 && b < 16 && HexDigit(a) == HexDigit(b)
    ensures a == b
  {
  }

  // ------------------------------------------------- recorded completions

  /** One entry of a recorded-completions file, with its prompt text already read. */
  datatype RecordedPrompt = RecordedPrompt(prompt: string, temperature: Temperature, completions: seq<string>, usedTokens: nat)

  /** The map after `addCompletions(prompt, temperature, completions, usedTokens)`. */
  function Recorded(m: map<string, CompletionSet>, e: RecordedPrompt): map<string, CompletionSet>
  {
    m[Key(e.prompt, e.temperature) := CompletionSet(Dedup(e.completions), e.usedTokens)]
  }

  /** The map after recording every entry of a file, in order. */
  function Load(entries: seq<RecordedPrompt>): map<string, CompletionSet>
  {
    if entries == [] then map[] else Recorded(Load(entries[..|entries| - 1]), entries[|entries| - 1])
  }

  /** The tokens billed for every entry of a file. */
  function TokensOf(entries: seq<RecordedPrompt>): nat
  {
    if entries == [] then 0 else TokensOf(entries[..|entries| - 1]) + entries[|entries| - 1].usedTokens
  }

  predicate RecordsPair(e: RecordedPrompt, prompt: string, temperature: Temperature)
  {
    e.prompt == prompt && e.temperature == temperature
  }

  /** The last entry of a file that records the given pair, if any. */
  function LastRecordOf(entries: seq<RecordedPrompt>, prompt: string, temperature: Temperature): Option<RecordedPrompt>
  {
    if entries == [] then None
    else if RecordsPair(entries[|entries| - 1], prompt, temperature) then Some(entries[|entries| - 1])
    else LastRecordOf(entries[..|entries| - 1], prompt, temperature)
  }

  /**
   * After loading a file, a (prompt, temperature) pair is present exactly
   * when some entry records it, and it holds the last such entry's
   * completions and tokens: later entries for other pairs never overwrite it.
   */
  lemma {:induction false} LoadKeepsLastEntry(entries: seq<RecordedPrompt>, prompt: string, temperature: Temperature)
    ensures Key(prompt, temperature) in Load(entries) <==> LastRecordOf(entries, prompt, temperature).Some?
    ensures LastRecordOf(entries, prompt, temperature).Some? ==>
      var e := LastRecordOf(entries, prompt, temperature).value;
      Load(entries)[Key(prompt, temperature)] == CompletionSet(Dedup(e.completions), e.usedTokens)
  {
    if entries != [] {
      var init, last := entries[..|entries| - 1], entries[|entries| - 1];
      LoadKeepsLastEntry(init, prompt, temperature);
      if !RecordsPair(last, prompt, temperature) && Key(last.prompt, last.temperature) == Key(prompt, temperature) {
        KeyInjective(last.prompt, last.temperature, prompt, temperature);
      }
    }
  }

  /** `LastRecordOf` finds an entry of the file that records the pair, and no later entry does. */
  lemma {:induction false} LastRecordIsLast(entries: seq<RecordedPrompt>, prompt: string, temperature: Temperature)
    ensures LastRecordOf(entries, prompt, temperature).None? <==>
      forall i :: 0 <= i < |entries| ==> !RecordsPair(entries[i], prompt, temperature)
    ensures LastRecordOf(entries, prompt, temperature).Some? ==>
      exists i :: 0 <= i < |entries| && entries[i] == LastRecordOf(entries, prompt, temperature).value
        && RecordsPair(entries[i], prompt, temperature)
        && forall j :: i < j < |entries| ==> !RecordsPair(entries[j], prompt, temperature)
  {
    if entries != [] {
      var init := entries[..|entries| - 1];
      LastRecordIsLast(init, prompt, temperature);
      if !RecordsPair(entries[|entries| - 1], prompt, temperature) && LastRecordOf(init, prompt, temperature).Some? {
        var i :| 0 <= i < |init| && init[i] == LastRecordOf(init, prompt, temperature).value
          && RecordsPair(init[i], prompt, temperature)
          && forall j :: i < j < |init| ==> !RecordsPair(init[j], prompt, temperature);
        assert entries[i] == init[i];
      }
    }
  }
}
