/**
 * The records the benchmark scripts read back from a run's `report.json`
 * and `prompts.json` (benchmark/count_hallucinations.ts and
 * benchmark/improvement_report.ts), and the lookup maps both scripts build
 * from them. Reading and parsing the files is not part of this model: the
 * scripts start here from the parsed lists.
 */
module BenchmarkReports {
  import opened Wrappers

  /** One entry of a prompt's `provenance`: the prompt it was refined from, the test, the refiner. */
  datatype Provenance = Provenance(originalPrompt: int, test: int, refiner: string)

  datatype PromptReport = PromptReport(id: int, file: string, tests: seq<string>, provenance: seq<Provenance>)

  /** `err`, whose `stack` and `message` may be missing. */
  datatype ErrorReport = ErrorReport(stack: Option<string>, message: Option<string>)

  datatype TestReport = TestReport(testName: string, promptIds: seq<int>, status: string, err: ErrorReport)

  /** `m.get(k)`: `None` stands for `undefined`. */
  function Get<K, V>(m: map<K, V>, k: K): (r: Option<V>)
    ensures r.Some? <==> k in m
    ensures r.Some? ==> r.value == m[k]
  {
    if k in m then Some(m[k]) else None
  }

  // ------------------------------------------------------------- testsMap

  /** `testsMap` after `testsMap.set(test.testName, test)` for each test, in order. */
  function TestsMapOf(tests: seq<TestReport>): map<string, TestReport>
  {
    if tests == [] then map[]
    else TestsMapOf(tests[..|tests| - 1])[tests[|tests| - 1].testName := tests[|tests| - 1]]
  }

  /** The position of the last test named `name`, if any. */
  function LastNamed(tests: seq<TestReport>, name: string): (r: Option<nat>)
    ensures r.Some? ==> (r.value < |tests| && tests[r.value].testName == name
      && forall j :: r.value < j < |tests| ==> tests[j].testName != name)
    ensures r.None? <==> forall j :: 0 <= j < |tests| ==> tests[j].testName != name
  {
    if tests == [] then None
    else if tests[|tests| - 1].testName == name then Some(|tests| - 1)
    else LastNamed(tests[..|tests| - 1], name)
  }

  /** A name maps to the last test report carrying it; names no report carries are absent. */
  lemma {:induction false} TestsMapLastWins(tests: seq<TestReport>, name: string)
    ensures Get(TestsMapOf(tests), name)
         == match LastNamed(tests, name) case Some(i) => Some(tests[i]) case None => None
  {
    if tests != [] {
      TestsMapLastWins(tests[..|tests| - 1], name);
    }
  }

  /** The `testsMap` loop. */
  method BuildTestsMap(tests: seq<TestReport>) returns (testsMap: map<string, TestReport>)
    ensures testsMap == TestsMapOf(tests)
  {
    testsMap := map[];
    for i := 0 to |tests|
      invariant testsMap == TestsMapOf(tests[..i])
    {
      assert tests[..i + 1][..i] == tests[..i];
      testsMap := testsMap[tests[i].testName := tests[i]];
    }
    assert tests[..|tests|] == tests;
  }

  // ----------------------------------------------------------- promptsMap

  /** `promptsMap` after `promptsMap.set(prompt.id, prompt)` for each prompt, in order. */
  function PromptsMapOf(prompts: seq<PromptReport>): map<int, PromptReport>
  {
    if prompts == [] then map[]
    else PromptsMapOf(prompts[..|prompts| - 1])[prompts[|prompts| - 1].id := prompts[|prompts| - 1]]
  }

  /** The position of the last prompt with id `id`, if any. */
  function LastWithId(prompts: seq<PromptReport>, id: int): (r: Option<nat>)
    ensures r.Some? ==> (r.value < |prompts| && prompts[r.value].id == id
      && forall j :: r.value < j < |prompts| ==> prompts[j].id != id)
    ensures r.None? <==> forall j :: 0 <= j < |prompts| ==> prompts[j].id != id
  {
    if prompts == [] then None
    else if prompts[|prompts| - 1].id == id then Some(|prompts| - 1)
    else LastWithId(prompts[..|prompts| - 1], id)
  }

  /** An id maps to the last prompt report carrying it; ids no report carries are absent. */
  lemma {:induction false} PromptsMapLastWins(prompts: seq<PromptReport>, id: int)
    ensures Get(PromptsMapOf(prompts), id)
         == match LastWithId(prompts, id) case Some(i) => Some(prompts[i]) case None => None
  {
    if prompts != [] {
      PromptsMapLastWins(prompts[..|prompts| - 1], id);
    }
  }
}
