/**
 * `CachedCompletionModel` (src/cacheModel.ts): recorded completions first,
 * then, when a pair has fewer recorded completions than wanted, the real
 * model for the shortfall, within a token budget.
 */
module CacheModel {
  import opened Wrappers
  import opened Text
  import opened CompletionModel
  import MockModel

  /** `instanceOptions.n || 1`. */
  function NumOfCompletions(n: Option<int>): int
  {
    if n.None? || n.value == 0 then 1 else n.value
  }

  /** The temperature a lookup is keyed by: `postOptions.temperature || 0.0`. */
  function KeyTemperature(t: Option<Temperature>): Temperature
  {
    if t.None? then "0" else t.value
  }

  /** How a template literal renders `postOptions.temperature`. */
  function TemperatureText(t: Option<Temperature>): string
  {
    if t.None? then "undefined" else t.value
  }

  /** The options the real model is asked with: the caller's, with `n` set to the shortfall. */
  function ShortfallOptions(options: PostOptions, wanted: int, have: nat): PostOptions
  {
    options.(n := Some(wanted - have))
  }

  /** The record a lookup reads; an absent pair reads as an empty set. */
  function Stored(m: map<string, CompletionSet>, prompt: string, options: PostOptions): CompletionSet
  {
    var k := Key(prompt, KeyTemperature(options.temperature));
    if k in m then m[k] else EmptyCompletionSet
  }

  /** The answer to `completions(prompt, postOptions)` and the token total afterwards. */
  function Answer(
    m: map<string, CompletionSet>, numOfCompletions: int, strict: bool, tokenLimit: int, totalTokens: nat,
    realModel: (string, PostOptions) -> CompletionSet, prompt: string, options: PostOptions): (Result<CompletionSet>, nat)
  {
    var stored := Stored(m, prompt, options);
    if |stored.completions| < numOfCompletions then
      if strict then (Failure(MockModel.NotFoundMessage(prompt, TemperatureText(options.temperature))), totalTokens)
      else
        var topUp := realModel(prompt, ShortfallOptions(options, numOfCompletions, |stored.completions|));
        var total := totalTokens + topUp.usedTokens;
        if tokenLimit > 0 && total < tokenLimit then (Success(topUp), total) else (Success(stored), total)
    else (Success(stored), totalTokens)
  }

  class CachedCompletionModel {
    const strictResponses: bool
    const tokenLimit: int
    const numOfCompletions: int
    /** The `Codex` instance asked on a cache miss. */
    const realModel: (string, PostOptions) -> CompletionSet
    var completionMap: map<string, CompletionSet>
    var totalTokens: nat

    /** The constructor, once the file and its prompt files have been read into `entries`. */
    constructor (strictResponses: bool, entries: seq<RecordedPrompt>, tokenLimit: int, instanceOptions: PostOptions,
                 realModel: (string, PostOptions) -> CompletionSet)
      ensures this.strictResponses == strictResponses && this.tokenLimit == tokenLimit && this.realModel == realModel
      ensures numOfCompletions == NumOfCompletions(instanceOptions.n)
      ensures completionMap == Load(entries) && totalTokens == TokensOf(entries)
    {
      this.strictResponses := strictResponses;
      this.tokenLimit := tokenLimit;
      this.realModel := realModel;
      numOfCompletions := NumOfCompletions(instanceOptions.n);
      completionMap := map[];
      totalTokens := 0;
      new;
      for i := 0 to |entries|
        invariant completionMap == Load(entries[..i]) && totalTokens == TokensOf(entries[..i])
      {
        AddCompletions(entries[i].prompt, entries[i].temperature, entries[i].completions, entries[i].usedTokens);
        assert entries[..i + 1][..i] == entries[..i];
      }
      assert entries[..|entries|] == entries;
    }

    method AddCompletions(prompt: string, temperature: Temperature, completions: seq<string>, usedTokens: nat)
      modifies this
      ensures completionMap == Recorded(old(completionMap), RecordedPrompt(prompt, temperature, completions, usedTokens))
      ensures totalTokens == old(totalTokens) + usedTokens
    {
      completionMap := completionMap[Key(prompt, temperature) := CompletionSet(Dedup(completions), usedTokens)];
      totalTokens := totalTokens + usedTokens;
    }

    /** Completions from the cache, topped up by the real model; what it fetches is never cached. */
    method Completions(prompt: string, options: PostOptions) returns (r: Result<CompletionSet>)
      modifies this
      ensures completionMap == old(completionMap)
      ensures (r, totalTokens)
           == Answer(completionMap, numOfCompletions, strictResponses, tokenLimit, old(totalTokens), realModel, prompt, options)
    {
      var stored := Stored(completionMap, prompt, options);
      if |stored.completions| < numOfCompletions {
        if strictResponses {
          return Failure(MockModel.NotFoundMessage(prompt, TemperatureText(options.temperature)));
        }
        var topUp := realModel(prompt, ShortfallOptions(options, numOfCompletions, |stored.completions|));
        totalTokens := totalTokens + topUp.usedTokens;
        if tokenLimit > 0 && totalTokens < tokenLimit {
          return Success(topUp);
        }
      }
      return Success(stored);
    }

    function UsedTokens(): nat
      reads this
    {
      totalTokens
    }
  }

  // ---------------------------------------------------------------- lemmas

  /** The token total never goes down, and only a real-model call raises it. */
  lemma AnswerTokens(
    m: map<string, CompletionSet>, num: int, strict: bool, tokenLimit: int, total: nat,
    realModel: (string, PostOptions) -> CompletionSet, prompt: string, options: PostOptions)
    ensures var (_, after) := Answer(m, num, strict, tokenLimit, total, realModel, prompt, options);
      after >= total && (after == total || (!strict && |Stored(m, prompt, options).completions| < num))
  {
  }

  /**
   * A pair with enough recorded completions is served from the record, at
   * no cost; options without a temperature read the record at temperature 0.
   */
  lemma HitServesRecord(
    m: map<string, CompletionSet>, num: int, strict: bool, tokenLimit: int, total: nat,
    realModel: (string, PostOptions) -> CompletionSet, e: RecordedPrompt, options: PostOptions)
    requires KeyTemperature(options.temperature) == e.temperature
    requires |Dedup(e.completions)| >= num
    ensures Answer(Recorded(m, e), num, strict, tokenLimit, total, realModel, e.prompt, options)
         == (Success(CompletionSet(Dedup(e.completions), e.usedTokens)), total)
  {
  }

  /**
   * On a miss of a lenient model, the real model is asked for exactly the
   * shortfall; its completions are returned only while the new total stays
   * under a positive limit, and otherwise the short record is returned.
   */
  lemma MissAsksForShortfall(
    m: map<string, CompletionSet>, num: int, tokenLimit: int, total: nat,
    realModel: (string, PostOptions) -> CompletionSet, prompt: string, options: PostOptions)
    requires |Stored(m, prompt, options).completions| < num
    ensures var stored := Stored(m, prompt, options);
      var topUp := realModel(prompt, options.(n := Some(num - |stored.completions|)));
      var (r, after) := Answer(m, num, false, tokenLimit, total, realModel, prompt, options);
      after == total + topUp.usedTokens
      && r.Success?
      && (tokenLimit > 0 && after < tokenLimit ==> r.value == topUp)
      && (!(tokenLimit > 0 && after < tokenLimit) ==> r.value == stored)
  {
  }

  /** A strict model fails on a miss, naming the temperature as given (`undefined` when absent). */
  lemma StrictMissFails(
    m: map<string, CompletionSet>, num: int, tokenLimit: int, total: nat,
    realModel: (string, PostOptions) -> CompletionSet, prompt: string, options: PostOptions)
    requires |Stored(m, prompt, options).completions| < num
    ensures Answer(m, num, true, tokenLimit, total, realModel, prompt, options)
         == (Failure(MockModel.NotFoundMessage(prompt, TemperatureText(options.temperature))), total)
  {
  }
}
