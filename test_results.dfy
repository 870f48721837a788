/**
 * The test-result collector the generator reports to (`ITestResultCollector`
 * in src/generateTests.ts; its implementation, src/testResultCollector.ts,
 * is not part of this model). It keeps one record per distinct test source,
 * holding the prompts that produced that source and an outcome recorded
 * once, plus a log of every prompt queried.
 */
module TestResults {
  import opened Wrappers
  import opened CompletionModel
  import opened PromptCrafting

  /** `ITestInfo`: `outcome` is `None` between `recordTestInfo` and `recordTestResult`. */
  datatype TestRecord = TestRecord(
    id: nat,
    testName: string,
    testSource: string,
    api: string,
    prompts: seq<Prompt>,
    outcome: Option<TestOutcome>)

  /** One `recordPromptInfo(prompt, temperature, completions, usedTokens)` call. */
  datatype PromptRecord = PromptRecord(prompt: Prompt, temperature: Temperature, completions: seq<string>, usedTokens: nat)

  /** Where the record holding `source` is, if there is one. */
  function SourceIndex(tests: seq<TestRecord>, source: string): (r: Option<nat>)
    ensures r.Some? ==> r.value < |tests| && tests[r.value].testSource == source
    ensures r.None? <==> forall i :: 0 <= i < |tests| ==> tests[i].testSource != source
  {
    if tests == [] then None
    else if tests[|tests| - 1].testSource == source then Some(|tests| - 1)
    else SourceIndex(tests[..|tests| - 1], source)
  }

  /** Some record holds `source` and its test passed. */
  predicate PassedSource(tests: seq<TestRecord>, source: string)
  {
    exists i :: 0 <= i < |tests| && tests[i].testSource == source && tests[i].outcome == Some(Passed)
  }

  /** `b` keeps every record of `a` at its place, with its source and its outcome. */
  predicate KeepsRecords(a: seq<TestRecord>, b: seq<TestRecord>)
  {
    |a| <= |b| && forall i :: 0 <= i < |a| ==> b[i].testSource == a[i].testSource && b[i].outcome == a[i].outcome
  }

  predicate DistinctSources(tests: seq<TestRecord>)
  {
    forall i, j :: 0 <= i < j < |tests| ==> tests[i].testSource != tests[j].testSource
  }

  class ResultCollector {
    /** How the collector names the test with a given id. */
    const testNameOf: nat -> string
    var tests: seq<TestRecord>
    var promptLog: seq<PromptRecord>

    /** Record `i` has id `i`, its name, at least one prompt, and no two records share a source. */
    ghost predicate Wellformed()
      reads this
    {
      && (forall i :: 0 <= i < |tests| ==>
            tests[i].id == i && tests[i].testName == testNameOf(i) && |tests[i].prompts| >= 1)
      && DistinctSources(tests)
    }

    /** Every record carries its outcome. */
    ghost predicate Judged()
      reads this
    {
      forall i :: 0 <= i < |tests| ==> tests[i].outcome.Some?
    }

    constructor (testNameOf: nat -> string)
      ensures this.testNameOf == testNameOf && tests == [] && promptLog == []
      ensures Wellformed() && Judged()
    {
      this.testNameOf := testNameOf;
      tests := [];
      promptLog := [];
    }

    /**
     * `recordTestInfo(source, prompt, api)`: a source seen before gains the
     * prompt; a new source gets a fresh record with the next id and no outcome.
     */
    method RecordTestInfo(source: string, prompt: Prompt, api: string) returns (info: TestRecord)
      requires Wellformed()
      modifies this
      ensures Wellformed() && promptLog == old(promptLog)
      ensures match SourceIndex(old(tests), source)
        case Some(i) =>
          info == old(tests[i]).(prompts := old(tests[i]).prompts + [prompt]) && tests == old(tests)[i := info]
        case None =>
          info == TestRecord(|old(tests)|, testNameOf(|old(tests)|), source, api, [prompt], None)
          && tests == old(tests) + [info]
    {
      var index := SourceIndex(tests, source);
      if index.Some? {
        info := tests[index.value].(prompts := tests[index.value].prompts + [prompt]);
        tests := tests[index.value := info];
      } else {
        info := TestRecord(|tests|, testNameOf(|tests|), source, api, [prompt], None);
        tests := tests + [info];
      }
    }

    /** `recordTestResult(info, temperature, outcome)`: the record's outcome is set. */
    method RecordTestResult(id: nat, outcome: TestOutcome)
      requires Wellformed() && id < |tests|
      modifies this
      ensures tests == old(tests)[id := old(tests)[id].(outcome := Some(outcome))]
      ensures promptLog == old(promptLog) && Wellformed()
    {
      tests := tests[id := tests[id].(outcome := Some(outcome))];
    }

    /** `recordPromptInfo(prompt, temperature, completions, usedTokens)` */
    method RecordPromptInfo(prompt: Prompt, temperature: Temperature, completions: seq<string>, usedTokens: nat)
      modifies this
      ensures promptLog == old(promptLog) + [PromptRecord(prompt, temperature, completions, usedTokens)]
      ensures tests == old(tests)
    {
      promptLog := promptLog + [PromptRecord(prompt, temperature, completions, usedTokens)];
    }
  }

  /**
   * Whether a recorded source passed is settled once it is recorded: later
   * collectors that keep the records and their distinct sources agree.
   */
  lemma PassedSourceSettled(a: seq<TestRecord>, b: seq<TestRecord>, source: string)
    requires KeepsRecords(a, b) && DistinctSources(b)
    requires SourceIndex(a, source).Some?
    ensures PassedSource(b, source) <==> PassedSource(a, source)
  {
    var k := SourceIndex(a, source).value;
    if PassedSource(b, source) {
      var i :| 0 <= i < |b| && b[i].testSource == source && b[i].outcome == Some(Passed);
      assert i == k;
    }
    if PassedSource(a, source) {
      var i :| 0 <= i < |a| && a[i].testSource == source && a[i].outcome == Some(Passed);
      assert b[i].testSource == source;
    }
  }

  /** With distinct sources, a record's source passed exactly when that record did. */
  lemma PassedSourceAt(tests: seq<TestRecord>, k: nat)
    requires DistinctSources(tests) && k < |tests|
    ensures SourceIndex(tests, tests[k].testSource).Some?
    ensures PassedSource(tests, tests[k].testSource) <==> tests[k].outcome == Some(Passed)
  {
  }

  lemma KeepsRecordsTransitive(a: seq<TestRecord>, b: seq<TestRecord>, c: seq<TestRecord>)
    requires KeepsRecords(a, b) && KeepsRecords(b, c)
    ensures KeepsRecords(a, c)
  {
  }
}
