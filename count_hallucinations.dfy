/**
 * benchmark/count_hallucinations.ts: which failed tests hallucinated an API
 * (a property read of `undefined`, or a call of something that is not a
 * function), and whether prompt refinement later fixed each of them, that
 * is, whether a passing test is reachable from it through the prompts that
 * produced it and the prompts refined from those.
 */
module CountHallucinations {
  import opened Wrappers
  import opened Text
  import opened BenchmarkReports

  /** The three maps the script builds: `testsMap`, `promptsMap` and `nextPrompts`. */
  datatype Reports = Reports(tests: map<string, TestReport>, prompts: map<int, PromptReport>, next: map<int, seq<int>>)

  datatype Hallucination = Hallucination(test: string, prompts: seq<int>, error: string)

  // ---------------------------------------------------------- nextPrompts

  /** `n` copies of `x`. */
  function Repeat(x: int, n: nat): (r: seq<int>)
    ensures |r| == n && forall i :: 0 <= i < n ==> r[i] == x
  {
    if n == 0 then [] else Repeat(x, n - 1) + [x]
  }

  /** `nextPrompts.get(o) ?? []`. */
  function NextOf(next: map<int, seq<int>>, o: int): seq<int>
  {
    Get(next, o).GetOr([])
  }

  /** The provenance loop for the prompt with id `id`: each entry appends `id` under its original prompt. */
  function AddProvenance(next: map<int, seq<int>>, id: int, provenance: seq<Provenance>): map<int, seq<int>>
  {
    if provenance == [] then next
    else
      var m := AddProvenance(next, id, provenance[..|provenance| - 1]);
      var o := provenance[|provenance| - 1].originalPrompt;
      m[o := NextOf(m, o) + [id]]
  }

  /** `nextPrompts` once every prompt has been visited. */
  function NextPromptsOf(prompts: seq<PromptReport>): map<int, seq<int>>
  {
    if prompts == [] then map[]
    else AddProvenance(NextPromptsOf(prompts[..|prompts| - 1]), prompts[|prompts| - 1].id, prompts[|prompts| - 1].provenance)
  }

  /** How many provenance entries name `o` as their original prompt. */
  function OriginCount(provenance: seq<Provenance>, o: int): nat
  {
    if provenance == [] then 0
    else OriginCount(provenance[..|provenance| - 1], o) + (if provenance[|provenance| - 1].originalPrompt == o then 1 else 0)
  }

  /** Each prompt's id, once per provenance entry that names `o`, prompt by prompt. */
  function Successors(prompts: seq<PromptReport>, o: int): seq<int>
  {
    if prompts == [] then []
    else
      var p := prompts[|prompts| - 1];
      Successors(prompts[..|prompts| - 1], o) + Repeat(p.id, OriginCount(p.provenance, o))
  }

  /** Some provenance entry of some prompt names `o`. */
  predicate Refined(prompts: seq<PromptReport>, o: int)
  {
    exists i, k :: 0 <= i < |prompts| && 0 <= k < |prompts[i].provenance| && prompts[i].provenance[k].originalPrompt == o
  }

  lemma {:induction false} AddProvenanceLists(next: map<int, seq<int>>, id: int, provenance: seq<Provenance>, o: int)
    ensures NextOf(AddProvenance(next, id, provenance), o) == NextOf(next, o) + Repeat(id, OriginCount(provenance, o))
    ensures o in AddProvenance(next, id, provenance)
        <==> o in next || exists k :: 0 <= k < |provenance| && provenance[k].originalPrompt == o
  {
    if provenance != [] {
      var init := provenance[..|provenance| - 1];
      AddProvenanceLists(next, id, init, o);
      assert forall k :: 0 <= k < |init| ==> init[k] == provenance[k];
      var n := OriginCount(init, o);
      if provenance[|provenance| - 1].originalPrompt == o {
        assert Repeat(id, n + 1) == Repeat(id, n) + [id];
      }
    }
  }

  /**
   * `nextPrompts.get(o) ?? []` lists each prompt's id once per provenance
   * entry naming `o`, in the order of the prompts; `o` is a key exactly when
   * some entry names it.
   */
  lemma {:induction false} NextPromptsLists(prompts: seq<PromptReport>, o: int)
    ensures NextOf(NextPromptsOf(prompts), o) == Successors(prompts, o)
    ensures o in NextPromptsOf(prompts) <==> Refined(prompts, o)
  {
    if prompts != [] {
      var init := prompts[..|prompts| - 1];
      var p := prompts[|prompts| - 1];
      NextPromptsLists(init, o);
      AddProvenanceLists(NextPromptsOf(init), p.id, p.provenance, o);
      if Refined(prompts, o) {
        var i, k :| 0 <= i < |prompts| && 0 <= k < |prompts[i].provenance| && prompts[i].provenance[k].originalPrompt == o;
        if i < |init| {
          assert init[i] == prompts[i];
        }
      }
      if Refined(init, o) {
        var i, k :| 0 <= i < |init| && 0 <= k < |init[i].provenance| && init[i].provenance[k].originalPrompt == o;
        assert prompts[i] == init[i];
      }
    }
  }

  /** The loop that fills `promptsMap` and `nextPrompts`. */
  method BuildPromptMaps(prompts: seq<PromptReport>) returns (promptsMap: map<int, PromptReport>, nextPrompts: map<int, seq<int>>)
    ensures promptsMap == PromptsMapOf(prompts) && nextPrompts == NextPromptsOf(prompts)
  {
    promptsMap := map[];
    nextPrompts := map[];
    for i := 0 to |prompts|
      invariant promptsMap == PromptsMapOf(prompts[..i]) && nextPrompts == NextPromptsOf(prompts[..i])
    {
      var prompt := prompts[i];
      assert prompts[..i + 1][..i] == prompts[..i];
      promptsMap := promptsMap[prompt.id := prompt];
      ghost var before := nextPrompts;
      for k := 0 to |prompt.provenance|
        invariant nextPrompts == AddProvenance(before, prompt.id, prompt.provenance[..k])
      {
        var o := prompt.provenance[k].originalPrompt;
        assert prompt.provenance[..k + 1][..k] == prompt.provenance[..k];
        if o !in nextPrompts {
          nextPrompts := nextPrompts[o := []];
        }
        nextPrompts := nextPrompts[o := nextPrompts[o] + [prompt.id]];
      }
      assert prompt.provenance[..|prompt.provenance|] == prompt.provenance;
    }
    assert prompts[..|prompts|] == prompts;
  }

  // --------------------------------------------------------- the search graph

  /** The tests of the prompts `nextPrompts` lists, skipping ids without a report. */
  function NextTests(r: Reports, nextPrompts: seq<int>): seq<string>
  {
    if nextPrompts == [] then []
    else
      var np := nextPrompts[|nextPrompts| - 1];
      NextTests(r, nextPrompts[..|nextPrompts| - 1]) + (if np in r.prompts then r.prompts[np].tests else [])
  }

  /** The tests of the prompts refined from the prompts `promptIds` lists, skipping ids without a report. */
  function PromptTests(r: Reports, promptIds: seq<int>): seq<string>
  {
    if promptIds == [] then []
    else
      var pid := promptIds[|promptIds| - 1];
      PromptTests(r, promptIds[..|promptIds| - 1])
        + (if pid in r.prompts then NextTests(r, NextOf(r.next, r.prompts[pid].id)) else [])
  }

  /** The tests looked at when `test` is expanded, in the order the loops visit them. */
  function Expansion(r: Reports, test: string): seq<string>
  {
    if test in r.tests then PromptTests(r, r.tests[test].promptIds) else []
  }

  /**
   * One step of the search: `u` is a test of a prompt refined from a prompt
   * that produced `t`.
   */
  ghost predicate Edge(r: Reports, t: string, u: string)
  {
    && t in r.tests
    && (exists pid, np :: pid in r.tests[t].promptIds && pid in r.prompts
          && np in NextOf(r.next, r.prompts[pid].id) && np in r.prompts && u in r.prompts[np].tests)
  }

  predicate Passed(r: Reports, t: string)
  {
    t in r.tests && r.tests[t].status == "PASSED"
  }

  ghost predicate IsPath(r: Reports, path: seq<string>)
  {
    |path| >= 1 && forall i :: 0 <= i < |path| - 1 ==> Edge(r, path[i], path[i + 1])
  }

  ghost predicate Reachable(r: Reports, start: string, u: string)
  {
    exists path :: IsPath(r, path) && path[0] == start && path[|path| - 1] == u
  }

  /** A passing test is reachable from `start`. */
  ghost predicate Fixed(r: Reports, start: string)
  {
    exists u :: Reachable(r, start, u) && Passed(r, u)
  }

  /** Every test the search can meet: the start and the tests of every prompt report. */
  function Mentioned(r: Reports, start: string): set<string>
  {
    {start} + set np, u | np in r.prompts && u in r.prompts[np].tests :: u
  }

  lemma {:induction false} NextTestsMembers(r: Reports, nextPrompts: seq<int>, u: string)
    ensures u in NextTests(r, nextPrompts)
        <==> exists np :: np in nextPrompts && np in r.prompts && u in r.prompts[np].tests
  {
    if nextPrompts != [] {
      var init := nextPrompts[..|nextPrompts| - 1];
      NextTestsMembers(r, init, u);
      assert nextPrompts == init + [nextPrompts[|nextPrompts| - 1]];
    }
  }

  lemma {:induction false} PromptTestsMembers(r: Reports, promptIds: seq<int>, u: string)
    ensures u in PromptTests(r, promptIds)
        <==> exists pid :: pid in promptIds && pid in r.prompts && u in NextTests(r, NextOf(r.next, r.prompts[pid].id))
  {
    if promptIds != [] {
      var init := promptIds[..|promptIds| - 1];
      PromptTestsMembers(r, init, u);
      assert promptIds == init + [promptIds[|promptIds| - 1]];
    }
  }

  /** The expansion of `t` holds exactly the tests one step away from `t`. */
  lemma ExpansionEdges(r: Reports, t: string, u: string)
    ensures u in Expansion(r, t) <==> Edge(r, t, u)
  {
    if t in r.tests {
      PromptTestsMembers(r, r.tests[t].promptIds, u);
      if u in Expansion(r, t) {
        var pid :| pid in r.tests[t].promptIds && pid in r.prompts && u in NextTests(r, NextOf(r.next, r.prompts[pid].id));
        NextTestsMembers(r, NextOf(r.next, r.prompts[pid].id), u);
      }
      if Edge(r, t, u) {
        var pid, np :| pid in r.tests[t].promptIds && pid in r.prompts
          && np in NextOf(r.next, r.prompts[pid].id) && np in r.prompts && u in r.prompts[np].tests;
        NextTestsMembers(r, NextOf(r.next, r.prompts[pid].id), u);
      }
    }
  }

  lemma EdgeMentioned(r: Reports, start: string, t: string, u: string)
    requires Edge(r, t, u)
    ensures u in Mentioned(r, start)
  {
    var pid, np :| pid in r.tests[t].promptIds && pid in r.prompts
      && np in NextOf(r.next, r.prompts[pid].id) && np in r.prompts && u in r.prompts[np].tests;
  }

  lemma ReachableStep(r: Reports, start: string, t: string, u: string)
    requires Reachable(r, start, t) && Edge(r, t, u)
    ensures Reachable(r, start, u)
  {
    var path :| IsPath(r, path) && path[0] == start && path[|path| - 1] == t;
    var longer := path + [u];
    assert forall i :: 0 <= i < |path| ==> longer[i] == path[i];
    assert IsPath(r, longer);
  }

  /** A path that starts in a set closed under steps stays in it. */
  lemma {:induction false} PathStaysInside(r: Reports, path: seq<string>, closed: set<string>)
    requires IsPath(r, path) && path[0] in closed
    requires forall t, u :: t in closed && Edge(r, t, u) ==> u in closed
    ensures path[|path| - 1] in closed
  {
    if |path| > 1 {
      var init := path[..|path| - 1];
      assert forall i :: 0 <= i < |init| ==> init[i] == path[i];
      assert IsPath(r, init);
      PathStaysInside(r, init, closed);
    }
  }

  /** Every test reachable from a member of a closed set is in it. */
  lemma ClosedHoldsReachable(r: Reports, start: string, closed: set<string>)
    requires start in closed
    requires forall t, u :: t in closed && Edge(r, t, u) ==> u in closed
    ensures forall u :: Reachable(r, start, u) ==> u in closed
  {
    forall u | Reachable(r, start, u)
      ensures u in closed
    {
      var path :| IsPath(r, path) && path[0] == start && path[|path| - 1] == u;
      PathStaysInside(r, path, closed);
    }
  }

  // ------------------------------------------------------ hallucinationFixed

  /** `s` without the tests already checked, in order. */
  function Unchecked(s: seq<string>, checked: set<string>): seq<string>
  {
    if s == [] then []
    else Unchecked(s[..|s| - 1], checked) + (if s[|s| - 1] in checked then [] else [s[|s| - 1]])
  }

  lemma {:induction false} UncheckedMembers(s: seq<string>, checked: set<string>, x: string)
    ensures x in Unchecked(s, checked) <==> x in s && x !in checked
  {
    if s != [] {
      var init := s[..|s| - 1];
      UncheckedMembers(init, checked, x);
      assert s == init + [s[|s| - 1]];
    }
  }

  lemma {:induction false} UncheckedAppend(a: seq<string>, b: seq<string>, checked: set<string>)
    ensures Unchecked(a + b, checked) == Unchecked(a, checked) + Unchecked(b, checked)
  {
    if b == [] {
      assert a + b == a;
    } else {
      var init := b[..|b| - 1];
      UncheckedAppend(a, init, checked);
      assert (a + b)[..|a + b| - 1] == a + init;
      assert (a + b)[|a + b| - 1] == b[|b| - 1];
    }
  }

  /** The loops over a test's prompts, their refinements and those prompts' tests: what gets pushed. */
  method Expand(r: Reports, test: string, checked: set<string>) returns (pushed: seq<string>)
    ensures pushed == Unchecked(Expansion(r, test), checked)
  {
    pushed := [];
    var promptIds := if test in r.tests then r.tests[test].promptIds else [];
    for i := 0 to |promptIds|
      invariant pushed == Unchecked(PromptTests(r, promptIds[..i]), checked)
    {
      assert promptIds[..i + 1][..i] == promptIds[..i];
      assert PromptTests(r, promptIds[..i + 1]) == PromptTests(r, promptIds[..i])
        + (if promptIds[i] in r.prompts then NextTests(r, NextOf(r.next, r.prompts[promptIds[i]].id)) else []);
      var more := [];
      if promptIds[i] in r.prompts {
        var prompt := r.prompts[promptIds[i]];
        more := PushNextTests(r, NextOf(r.next, prompt.id), checked);
      }
      UncheckedAppend(PromptTests(r, promptIds[..i]),
        if promptIds[i] in r.prompts then NextTests(r, NextOf(r.next, r.prompts[promptIds[i]].id)) else [], checked);
      pushed := pushed + more;
    }
    assert promptIds[..|promptIds|] == promptIds;
  }

  /** The loop over one prompt's refinements and their tests. */
  method PushNextTests(r: Reports, nextPrompts: seq<int>, checked: set<string>) returns (pushed: seq<string>)
    ensures pushed == Unchecked(NextTests(r, nextPrompts), checked)
  {
    pushed := [];
    for j := 0 to |nextPrompts|
      invariant pushed == Unchecked(NextTests(r, nextPrompts[..j]), checked)
    {
      assert nextPrompts[..j + 1][..j] == nextPrompts[..j];
      assert NextTests(r, nextPrompts[..j + 1]) == NextTests(r, nextPrompts[..j])
        + (if nextPrompts[j] in r.prompts then r.prompts[nextPrompts[j]].tests else []);
      ghost var before := pushed;
      var tests := if nextPrompts[j] in r.prompts then r.prompts[nextPrompts[j]].tests else [];
      if nextPrompts[j] in r.prompts {
        for k := 0 to |tests|
          invariant pushed == before + Unchecked(tests[..k], checked)
        {
          assert tests[..k + 1][..k] == tests[..k];
          if tests[k] !in checked {
            pushed := pushed + [tests[k]];
          }
        }
        assert tests[..|tests|] == tests;
      }
      UncheckedAppend(NextTests(r, nextPrompts[..j]), tests, checked);
    }
    assert nextPrompts[..|nextPrompts|] == nextPrompts;
  }

  /**
   * What the search knows between two pops: every test it has met is
   * reachable and within the tests the reports mention, no checked test
   * passed, and every step out of a checked test leads to a checked test or
   * to one still on the stack.
   */
  ghost predicate Frontier(r: Reports, start: string, checked: set<string>, q: seq<string>)
  {
    && checked <= Mentioned(r, start)
    && (forall u :: u in q ==> u in Mentioned(r, start) && Reachable(r, start, u))
    && (start in checked || start in q)
    && (forall u :: u in checked ==> Reachable(r, start, u) && !Passed(r, u))
    && (forall t, u :: t in checked && Edge(r, t, u) ==> u in checked || u in q)
  }

  lemma FrontierStart(r: Reports, start: string)
    ensures Frontier(r, start, {}, [start])
  {
    assert IsPath(r, [start]);
  }

  /** Popping a test that was checked before changes nothing else. */
  lemma FrontierSkip(r: Reports, start: string, checked: set<string>, q: seq<string>, test: string)
    requires Frontier(r, start, checked, q + [test]) && test in checked
    ensures Frontier(r, start, checked, q)
  {
    assert forall u :: u in q + [test] ==> u == test || u in q;
  }

  /** Checking a popped test that did not pass and pushing its unchecked expansion keeps the frontier. */
  lemma FrontierExpand(r: Reports, start: string, checked: set<string>, q: seq<string>, test: string, pushed: seq<string>)
    requires Frontier(r, start, checked, q + [test]) && test !in checked && !Passed(r, test)
    requires pushed == Unchecked(Expansion(r, test), checked + {test})
    ensures Frontier(r, start, checked + {test}, q + pushed)
  {
    assert forall u :: u in q + [test] ==> u == test || u in q;
    forall u | Edge(r, test, u)
      ensures u in checked + {test} || u in pushed
    {
      ExpansionEdges(r, test, u);
      UncheckedMembers(Expansion(r, test), checked + {test}, u);
    }
    forall u | u in pushed
      ensures u in Mentioned(r, start) && Reachable(r, start, u)
    {
      UncheckedMembers(Expansion(r, test), checked + {test}, u);
      ExpansionEdges(r, test, u);
      ReachableStep(r, start, test, u);
      EdgeMentioned(r, start, test, u);
    }
  }

  /** Once the stack is empty, the checked tests hold every reachable test, and none passed. */
  lemma FrontierExhausted(r: Reports, start: string, checked: set<string>)
    requires Frontier(r, start, checked, [])
    ensures !Fixed(r, start)
  {
    ClosedHoldsReachable(r, start, checked);
  }

  /**
   * `hallucinationFixed`: a depth-first search from `startingTest` that
   * expands each test at most once and answers whether it met a passing test.
   */
  method HallucinationFixed(r: Reports, startingTest: string) returns (fixed: bool)
    ensures fixed <==> Fixed(r, startingTest)
  {
    var checked: set<string> := {};
    var q := [startingTest];
    FrontierStart(r, startingTest);
    while q != []
      invariant Frontier(r, startingTest, checked, q)
      decreases |Mentioned(r, startingTest) - checked|, |q|
    {
      var test := q[|q| - 1];
      q := q[..|q| - 1];
      assert Frontier(r, startingTest, checked, q + [test]);
      if test in checked {
        FrontierSkip(r, startingTest, checked, q, test);
        continue;
      }
      assert test in Mentioned(r, startingTest);
      assert Mentioned(r, startingTest) - (checked + {test}) < Mentioned(r, startingTest) - checked;
      ghost var seen := checked;
      checked := checked + {test};
      var testReport := Get(r.tests, test);
      if testReport.Some? && testReport.value.status == "PASSED" {
        return true;
      }
      var pushed := Expand(r, test, checked);
      FrontierExpand(r, startingTest, seen, q, test, pushed);
      q := q + pushed;
    }
    FrontierExhausted(r, startingTest, checked);
    return false;
  }

  // ------------------------------------------------------------- the report

  /** `test.err.message?.includes("of undefined")`, or the same for the stack and "is not a function". */
  predicate IsHallucination(t: TestReport)
  {
    t.status == "FAILED"
    && ((t.err.message.Some? && Includes(t.err.message.value, "of undefined"))
        || (t.err.stack.Some? && Includes(t.err.stack.value, "is not a function")))
  }

  /** The entry written for a hallucinated test: `message ?? stack ?? "unknown"`. */
  function Entry(t: TestReport): Hallucination
  {
    Hallucination(t.testName, t.promptIds, t.err.message.GetOr(t.err.stack.GetOr("unknown")))
  }

  ghost function FixedOf(r: Reports, tests: seq<TestReport>): seq<Hallucination>
  {
    if tests == [] then []
    else
      var t := tests[|tests| - 1];
      FixedOf(r, tests[..|tests| - 1]) + (if IsHallucination(t) && Fixed(r, t.testName) then [Entry(t)] else [])
  }

  ghost function UnfixedOf(r: Reports, tests: seq<TestReport>): seq<Hallucination>
  {
    if tests == [] then []
    else
      var t := tests[|tests| - 1];
      UnfixedOf(r, tests[..|tests| - 1]) + (if IsHallucination(t) && !Fixed(r, t.testName) then [Entry(t)] else [])
  }

  function HallucinationCount(tests: seq<TestReport>): nat
  {
    if tests == [] then 0
    else HallucinationCount(tests[..|tests| - 1]) + (if IsHallucination(tests[|tests| - 1]) then 1 else 0)
  }

  /** Every hallucination is reported once, as fixed or as unfixed: the two counts add up. */
  lemma {:induction false} FixedUnfixedPartition(r: Reports, tests: seq<TestReport>)
    ensures |FixedOf(r, tests)| + |UnfixedOf(r, tests)| == HallucinationCount(tests)
  {
    if tests != [] {
      FixedUnfixedPartition(r, tests[..|tests| - 1]);
    }
  }

  /** Only hallucinations are reported, a fixed one only when a passing test is reachable from it. */
  lemma {:induction false} ReportedEntries(r: Reports, tests: seq<TestReport>, h: Hallucination)
    ensures h in FixedOf(r, tests) ==>
      exists i :: 0 <= i < |tests| && IsHallucination(tests[i]) && Fixed(r, tests[i].testName) && h == Entry(tests[i])
    ensures h in UnfixedOf(r, tests) ==>
      exists i :: 0 <= i < |tests| && IsHallucination(tests[i]) && !Fixed(r, tests[i].testName) && h == Entry(tests[i])
  {
    if tests != [] {
      var init := tests[..|tests| - 1];
      ReportedEntries(r, init, h);
      assert forall i :: 0 <= i < |init| ==> init[i] == tests[i];
    }
  }

  /** The maps the script searches, as it builds them from the parsed reports. */
  ghost function ReportsOf(tests: seq<TestReport>, prompts: seq<PromptReport>): Reports
  {
    Reports(TestsMapOf(tests), PromptsMapOf(prompts), NextPromptsOf(prompts))
  }

  /** The script once the reports are parsed: the fixed and the unfixed hallucinations, in test order. */
  method Report(tests: seq<TestReport>, prompts: seq<PromptReport>) returns (fixed: seq<Hallucination>, unfixed: seq<Hallucination>)
    ensures fixed == FixedOf(ReportsOf(tests, prompts), tests)
    ensures unfixed == UnfixedOf(ReportsOf(tests, prompts), tests)
  {
    var testsMap := BuildTestsMap(tests);
    var promptsMap, nextPrompts := BuildPromptMaps(prompts);
    var r := Reports(testsMap, promptsMap, nextPrompts);
    fixed, unfixed := [], [];
    for i := 0 to |tests|
      invariant fixed == FixedOf(r, tests[..i]) && unfixed == UnfixedOf(r, tests[..i])
    {
      var test := tests[i];
      assert tests[..i + 1][..i] == tests[..i];
      if IsHallucination(test) {
        var isFixed := HallucinationFixed(r, test.testName);
        if !isFixed {
          unfixed := unfixed + [Entry(test)];
        } else {
          fixed := fixed + [Entry(test)];
        }
      }
    }
    assert tests[..|tests|] == tests;
  }
}
