/**
 * `MockCompletionModel` (src/mockModel.ts): completions answered from a
 * map of recorded completions keyed by (prompt, temperature).
 */
module MockModel {
  import opened Wrappers
  import opened Text
  import opened CompletionModel

  function NotFoundMessage(prompt: string, temperature: string): string
  {
    "Prompt not found at temperature " + temperature + ": " + prompt
  }

  /** What `completions(prompt, temperature)` answers from the map `m`. */
  function Lookup(m: map<string, CompletionSet>, strict: bool, prompt: string, temperature: Temperature): Result<CompletionSet>
  {
    var k := Key(prompt, temperature);
    if k in m then Success(m[k])
    else if strict then Failure(NotFoundMessage(prompt, temperature))
    else Success(EmptyCompletionSet)
  }

  class MockCompletionModel {
    const strictResponses: bool
    var completionMap: map<string, CompletionSet>

    constructor (strictResponses: bool)
      ensures this.strictResponses == strictResponses && completionMap == map[]
    {
      this.strictResponses := strictResponses;
      completionMap := map[];
    }

    /** `fromFile`, once the file and its prompt files have been read into `entries`. */
    static method FromEntries(entries: seq<RecordedPrompt>, strictResponses: bool) returns (model: MockCompletionModel)
      ensures fresh(model)
      ensures model.strictResponses == strictResponses && model.completionMap == Load(entries)
    {
      model := new MockCompletionModel(strictResponses);
      for i := 0 to |entries|
        invariant model.strictResponses == strictResponses
        invariant model.completionMap == Load(entries[..i])
      {
        model.AddCompletions(entries[i].prompt, entries[i].temperature, entries[i].completions, entries[i].usedTokens);
        assert entries[..i + 1][..i] == entries[..i];
      }
      assert entries[..|entries|] == entries;
    }

    method AddCompletions(prompt: string, temperature: Temperature, completions: seq<string>, usedTokens: nat)
      modifies this
      ensures completionMap == Recorded(old(completionMap), RecordedPrompt(prompt, temperature, completions, usedTokens))
    {
      completionMap := completionMap[Key(prompt, temperature) := CompletionSet(Dedup(completions), usedTokens)];
    }

    /** Answers from the map and leaves it as it was. */
    method Completions(prompt: string, temperature: Temperature) returns (r: Result<CompletionSet>)
      ensures r == Lookup(completionMap, strictResponses, prompt, temperature)
    {
      var k := Key(prompt, temperature);
      if k in completionMap {
        return Success(completionMap[k]);
      }
      if strictResponses {
        return Failure(NotFoundMessage(prompt, temperature));
      }
      return Success(EmptyCompletionSet);
    }
  }

  // ---------------------------------------------------------------- lemmas

  /** A recorded pair is answered with its completions, duplicates removed, and its tokens. */
  lemma LookupAfterRecording(m: map<string, CompletionSet>, strict: bool, e: RecordedPrompt)
    ensures Lookup(Recorded(m, e), strict, e.prompt, e.temperature)
         == Success(CompletionSet(Dedup(e.completions), e.usedTokens))
  {
  }

  /** Recording one pair changes the answer for no other pair. */
  lemma LookupOtherPairs(m: map<string, CompletionSet>, strict: bool, e: RecordedPrompt, prompt: string, temperature: Temperature)
    requires prompt != e.prompt || temperature != e.temperature
    ensures Lookup(Recorded(m, e), strict, prompt, temperature) == Lookup(m, strict, prompt, temperature)
  {
    if Key(prompt, temperature) == Key(e.prompt, e.temperature) {
      KeyInjective(prompt, temperature, e.prompt, e.temperature);
    }
  }

  /**
   * A model loaded from a file answers a pair with the last entry recording
   * it; a pair no entry records is an error when responses are strict and
   * an empty set costing no tokens otherwise.
   */
  lemma LoadedAnswers(entries: seq<RecordedPrompt>, strict: bool, prompt: string, temperature: Temperature)
    ensures match LastRecordOf(entries, prompt, temperature)
      case Some(e) => Lookup(Load(entries), strict, prompt, temperature) == Success(CompletionSet(Dedup(e.completions), e.usedTokens))
      case None =>
        Lookup(Load(entries), strict, prompt, temperature)
          == if strict then Failure(NotFoundMessage(prompt, temperature)) else Success(EmptyCompletionSet)
  {
    LoadKeepsLastEntry(entries, prompt, temperature);
  }

  /** Strict and lenient models differ only on pairs that were never recorded. */
  lemma StrictnessOnlyAffectsMisses(m: map<string, CompletionSet>, prompt: string, temperature: Temperature)
    ensures Lookup(m, true, prompt, temperature).Failure? <==> Key(prompt, temperature) !in m
    ensures Lookup(m, false, prompt, temperature).Success?
    ensures Key(prompt, temperature) in m ==> Lookup(m, true, prompt, temperature) == Lookup(m, false, prompt, temperature)
  {
  }

  /** The three scenarios of test/mockModel.ts. */
  lemma RecordedScenarios()
    ensures Lookup(Recorded(map[], RecordedPrompt("foo", "0.5", ["bar", "baz"], 2)), true, "foo", "0.5")
         == Success(CompletionSet(["bar", "baz"], 2))
    ensures Lookup(map[], true, "foo", "0.5") == Failure("Prompt not found at temperature 0.5: foo")
    ensures Lookup(map[], false, "foo", "0.5") == Success(CompletionSet([], 0))
  {
    assert Dedup(["bar", "baz"]) == ["bar", "baz"] by {
      assert DedupAfter([], ["bar", "baz"]) == DedupAfter(["bar"], ["baz"]);
      assert ["bar", "baz"][1..] == ["baz"];
      assert DedupAfter(["bar"], ["baz"]) == DedupAfter(["bar", "baz"], []);
    }
  }
}
