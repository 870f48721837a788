/**
 * benchmark/improvement_report.ts: the status of every test and prompt of a
 * run, and, per refiner, how often a refined prompt was tried, how often it
 * passed where none of the prompts it was refined from had, and how often it
 * turned plain failures into assertion failures.
 */
module ImprovementReport {
  import opened Wrappers
  import opened Text
  import opened BenchmarkReports

  /** The strings "PASSED", "AssertionFailed" and "FAILED". */
  datatype Status = Passed | AssertionFailed | Failed

  datatype SummaryEntry = SummaryEntry(refiner: string, successful: nat, improvedError: nat, tried: nat)

  /** A refined prompt (`after`) and the prompts it was refined from (`before`). */
  datatype Instance = Instance(before: seq<int>, after: int)

  datatype InstanceEntry = InstanceEntry(refiner: string, successInstances: seq<Instance>, improvedInstances: seq<Instance>)

  /** What the script dies with when a prompt lists a test the report does not hold. */
  const MissingTestReport := "Cannot read properties of undefined (reading 'status')"

  // ------------------------------------------------------------- statuses

  /** A passing test; a failing one whose stack starts with `AssertionError`; anything else. */
  function TestStatus(t: TestReport): Status
  {
    if t.status == "PASSED" then Passed
    else if t.status == "FAILED" && t.err.stack.Some? && StartsWith(t.err.stack.value, "AssertionError") then AssertionFailed
    else Failed
  }

  /** `prompt.tests.map(...)`: the status of each test, failing at a test without a report. */
  function TestStatuses(testsMap: map<string, TestReport>, tests: seq<string>): (r: Result<seq<Status>>)
    ensures r.Success? <==> forall j :: 0 <= j < |tests| ==> tests[j] in testsMap
    ensures r.Failure? ==> r.error == MissingTestReport
    ensures r.Success? ==> |r.value| == |tests| && forall j :: 0 <= j < |tests| ==> r.value[j] == TestStatus(testsMap[tests[j]])
  {
    if tests == [] then Success([])
    else
      var last := tests[|tests| - 1];
      match TestStatuses(testsMap, tests[..|tests| - 1])
      case Failure(e) => Failure(e)
      case Success(init) => if last in testsMap then Success(init + [TestStatus(testsMap[last])]) else Failure(MissingTestReport)
  }

  /** A prompt passed if one of its tests did, else failed on an assertion if one of them did, else failed. */
  function PromptStatus(results: seq<Status>): Status
  {
    if Passed in results then Passed
    else if AssertionFailed in results then AssertionFailed
    else Failed
  }

  function Rank(s: Status): nat
  {
    match s
    case Failed => 0
    case AssertionFailed => 1
    case Passed => 2
  }

  /** A prompt's status is the best of its tests' statuses, and `FAILED` for a prompt without tests. */
  lemma PromptStatusIsBest(results: seq<Status>)
    ensures forall s :: s in results ==> Rank(s) <= Rank(PromptStatus(results))
    ensures results == [] ==> PromptStatus(results) == Failed
    ensures results != [] ==> PromptStatus(results) in results
  {
    if results != [] && PromptStatus(results) == Failed {
      assert results[0] == Failed;
    }
  }

  function StatusOf(testsMap: map<string, TestReport>, p: PromptReport): Result<Status>
  {
    match TestStatuses(testsMap, p.tests)
    case Failure(e) => Failure(e)
    case Success(results) => Success(PromptStatus(results))
  }

  /** `promptSuccess` once every prompt has been visited, or the error the script stops with. */
  function PromptSuccessOf(testsMap: map<string, TestReport>, prompts: seq<PromptReport>): Result<map<int, Status>>
  {
    if prompts == [] then Success(map[])
    else
      var p := prompts[|prompts| - 1];
      match PromptSuccessOf(testsMap, prompts[..|prompts| - 1])
      case Failure(e) => Failure(e)
      case Success(m) =>
        match StatusOf(testsMap, p)
        case Failure(e) => Failure(e)
        case Success(s) => Success(m[p.id := s])
  }

  /** Once a prefix of the prompts fails, the whole loop fails the same way. */
  lemma {:induction false} PromptSuccessFails(testsMap: map<string, TestReport>, prompts: seq<PromptReport>, i: nat)
    requires i <= |prompts| && PromptSuccessOf(testsMap, prompts[..i]).Failure?
    ensures PromptSuccessOf(testsMap, prompts) == PromptSuccessOf(testsMap, prompts[..i])
    decreases |prompts|
  {
    if i < |prompts| {
      var init := prompts[..|prompts| - 1];
      assert init[..i] == prompts[..i];
      PromptSuccessFails(testsMap, init, i);
    } else {
      assert prompts[..i] == prompts;
    }
  }

  /** The loop succeeds exactly when every test of every prompt has a report. */
  lemma {:induction false} PromptSuccessDefined(testsMap: map<string, TestReport>, prompts: seq<PromptReport>)
    ensures PromptSuccessOf(testsMap, prompts).Success?
        <==> forall i, j :: 0 <= i < |prompts| && 0 <= j < |prompts[i].tests| ==> prompts[i].tests[j] in testsMap
  {
    if prompts != [] {
      var init := prompts[..|prompts| - 1];
      PromptSuccessDefined(testsMap, init);
      assert forall i :: 0 <= i < |init| ==> init[i] == prompts[i];
    }
  }

  /** When the loop succeeds, each id maps to the status of the last prompt carrying it. */
  lemma {:induction false} PromptSuccessLastWins(testsMap: map<string, TestReport>, prompts: seq<PromptReport>, id: int)
    requires PromptSuccessOf(testsMap, prompts).Success?
    ensures var m := PromptSuccessOf(testsMap, prompts).value;
      match LastWithId(prompts, id)
      case Some(i) => Get(m, id).Some? && StatusOf(testsMap, prompts[i]) == Success(Get(m, id).value)
      case None => Get(m, id) == None
  {
    if prompts != [] {
      PromptSuccessLastWins(testsMap, prompts[..|prompts| - 1], id);
    }
  }

  /** The `promptSuccess` loop. */
  method BuildPromptSuccess(testsMap: map<string, TestReport>, prompts: seq<PromptReport>) returns (r: Result<map<int, Status>>)
    ensures r == PromptSuccessOf(testsMap, prompts)
  {
    var promptSuccess := map[];
    for i := 0 to |prompts|
      invariant PromptSuccessOf(testsMap, prompts[..i]) == Success(promptSuccess)
    {
      assert prompts[..i + 1][..i] == prompts[..i];
      var status := StatusOf(testsMap, prompts[i]);
      if status.Failure? {
        PromptSuccessFails(testsMap, prompts, i + 1);
        return Failure(status.error);
      }
      promptSuccess := promptSuccess[prompts[i].id := status.value];
    }
    assert prompts[..|prompts|] == prompts;
    return Success(promptSuccess);
  }

  // ---------------------------------------------------------- refinements

  function ProvenanceRefiners(provenance: seq<Provenance>): (r: seq<string>)
    ensures |r| == |provenance| && forall k :: 0 <= k < |provenance| ==> r[k] == provenance[k].refiner
  {
    if provenance == [] then []
    else ProvenanceRefiners(provenance[..|provenance| - 1]) + [provenance[|provenance| - 1].refiner]
  }

  /** `prompt.provenance.map((pr) => pr.originalPrompt)` */
  function Parents(provenance: seq<Provenance>): (r: seq<int>)
    ensures |r| == |provenance| && forall k :: 0 <= k < |provenance| ==> r[k] == provenance[k].originalPrompt
  {
    if provenance == [] then []
    else Parents(provenance[..|provenance| - 1]) + [provenance[|provenance| - 1].originalPrompt]
  }

  /** `new Set(prompt.provenance.map((p) => p.refiner))`, in insertion order. */
  function RefinersOf(p: PromptReport): seq<string>
  {
    Dedup(ProvenanceRefiners(p.provenance))
  }

  /** The refiners of the prompts, prompt by prompt. */
  function AllRefiners(prompts: seq<PromptReport>): seq<string>
  {
    if prompts == [] then []
    else AllRefiners(prompts[..|prompts| - 1]) + RefinersOf(prompts[|prompts| - 1])
  }

  /** The refiner names in the order the script first meets them. */
  function Names(prompts: seq<PromptReport>): seq<string>
  {
    Dedup(AllRefiners(prompts))
  }

  /** Some provenance entry of `p` names refiner `r`. */
  predicate Mentions(p: PromptReport, r: string)
  {
    exists k :: 0 <= k < |p.provenance| && p.provenance[k].refiner == r
  }

  /** A passing prompt none of whose parents passed. */
  predicate Succeeded(st: map<int, Status>, p: PromptReport)
  {
    Get(st, p.id) == Some(Passed)
    && forall k :: 0 <= k < |p.provenance| ==> Get(st, p.provenance[k].originalPrompt) != Some(Passed)
  }

  /** A prompt that failed on an assertion while all of its parents failed outright. */
  predicate Improved(st: map<int, Status>, p: PromptReport)
  {
    Get(st, p.id) == Some(AssertionFailed)
    && forall k :: 0 <= k < |p.provenance| ==> Get(st, p.provenance[k].originalPrompt) == Some(Failed)
  }

  function Tried(prompts: seq<PromptReport>, r: string): nat
  {
    if prompts == [] then 0
    else Tried(prompts[..|prompts| - 1], r) + (if r in RefinersOf(prompts[|prompts| - 1]) then 1 else 0)
  }

  function Successful(st: map<int, Status>, prompts: seq<PromptReport>, r: string): nat
  {
    if prompts == [] then 0
    else
      var p := prompts[|prompts| - 1];
      Successful(st, prompts[..|prompts| - 1], r) + (if r in RefinersOf(p) && Succeeded(st, p) then 1 else 0)
  }

  function ImprovedErrors(st: map<int, Status>, prompts: seq<PromptReport>, r: string): nat
  {
    if prompts == [] then 0
    else
      var p := prompts[|prompts| - 1];
      ImprovedErrors(st, prompts[..|prompts| - 1], r) + (if r in RefinersOf(p) && Improved(st, p) then 1 else 0)
  }

  function SuccessInstances(st: map<int, Status>, prompts: seq<PromptReport>, r: string): seq<Instance>
  {
    if prompts == [] then []
    else
      var p := prompts[|prompts| - 1];
      SuccessInstances(st, prompts[..|prompts| - 1], r)
        + (if r in RefinersOf(p) && Succeeded(st, p) then [Instance(Parents(p.provenance), p.id)] else [])
  }

  function ImprovedInstances(st: map<int, Status>, prompts: seq<PromptReport>, r: string): seq<Instance>
  {
    if prompts == [] then []
    else
      var p := prompts[|prompts| - 1];
      ImprovedInstances(st, prompts[..|prompts| - 1], r)
        + (if r in RefinersOf(p) && Improved(st, p) then [Instance(Parents(p.provenance), p.id)] else [])
  }

  /** The summary entry of refiner `r` after the given prompts. */
  function EntryOf(st: map<int, Status>, prompts: seq<PromptReport>, r: string): SummaryEntry
  {
    SummaryEntry(r, Successful(st, prompts, r), ImprovedErrors(st, prompts, r), Tried(prompts, r))
  }

  /** The instances entry of refiner `r` after the given prompts. */
  function InstancesOf(st: map<int, Status>, prompts: seq<PromptReport>, r: string): InstanceEntry
  {
    InstanceEntry(r, SuccessInstances(st, prompts, r), ImprovedInstances(st, prompts, r))
  }

  /** One refiner of prompt `p` counted in its summary entry. */
  function Bump(st: map<int, Status>, p: PromptReport, e: SummaryEntry): SummaryEntry
  {
    SummaryEntry(e.refiner,
      e.successful + (if Succeeded(st, p) then 1 else 0),
      e.improvedError + (if Improved(st, p) then 1 else 0),
      e.tried + 1)
  }

  /** One refiner of prompt `p` counted in its instances entry. */
  function BumpInstances(st: map<int, Status>, p: PromptReport, e: InstanceEntry): InstanceEntry
  {
    InstanceEntry(e.refiner,
      e.successInstances + (if Succeeded(st, p) then [Instance(Parents(p.provenance), p.id)] else []),
      e.improvedInstances + (if Improved(st, p) then [Instance(Parents(p.provenance), p.id)] else []))
  }

  lemma EntryStep(st: map<int, Status>, prompts: seq<PromptReport>, p: PromptReport, r: string)
    ensures EntryOf(st, prompts + [p], r)
         == if r in RefinersOf(p) then Bump(st, p, EntryOf(st, prompts, r)) else EntryOf(st, prompts, r)
  {
    assert (prompts + [p])[..|prompts|] == prompts;
  }

  lemma InstancesStep(st: map<int, Status>, prompts: seq<PromptReport>, p: PromptReport, r: string)
    ensures InstancesOf(st, prompts + [p], r)
         == if r in RefinersOf(p) then BumpInstances(st, p, InstancesOf(st, prompts, r)) else InstancesOf(st, prompts, r)
  {
    assert (prompts + [p])[..|prompts|] == prompts;
  }

  /** `RefinersOf(p)` holds exactly the refiners of `p`'s provenance. */
  lemma RefinersMentioned(p: PromptReport, r: string)
    ensures r in RefinersOf(p) <==> Mentions(p, r)
  {
    var rs := ProvenanceRefiners(p.provenance);
    if r in rs {
      var k :| 0 <= k < |rs| && rs[k] == r;
      assert p.provenance[k].refiner == r;
    }
  }

  lemma {:induction false} AllRefinersMembers(prompts: seq<PromptReport>, r: string)
    ensures r in AllRefiners(prompts) <==> exists i :: 0 <= i < |prompts| && Mentions(prompts[i], r)
  {
    if prompts != [] {
      var init := prompts[..|prompts| - 1];
      var last := |prompts| - 1;
      AllRefinersMembers(init, r);
      RefinersMentioned(prompts[last], r);
      if r in AllRefiners(init) {
        var i :| 0 <= i < |init| && Mentions(init[i], r);
        assert prompts[i] == init[i];
      } else if r in RefinersOf(prompts[last]) {
        assert Mentions(prompts[last], r);
      } else {
        forall i | 0 <= i < |prompts|
          ensures !Mentions(prompts[i], r)
        {
          if i < last {
            assert prompts[i] == init[i];
          }
        }
      }
    }
  }

  /** A refiner no prompt so far mentions has an empty entry. */
  lemma {:induction false} EntryAbsent(st: map<int, Status>, prompts: seq<PromptReport>, r: string)
    requires r !in AllRefiners(prompts)
    ensures EntryOf(st, prompts, r) == SummaryEntry(r, 0, 0, 0)
    ensures InstancesOf(st, prompts, r) == InstanceEntry(r, [], [])
  {
    if prompts != [] {
      EntryAbsent(st, prompts[..|prompts| - 1], r);
    }
  }

  // ------------------------------------------------------------ the loops

  /** `entries.find((i) => i.refiner === r)`, as an index; `refinerOf` reads an entry's refiner. */
  function FindRefiner<E>(entries: seq<E>, refinerOf: E -> string, r: string): (found: Option<nat>)
    ensures found.Some? ==> (found.value < |entries| && refinerOf(entries[found.value]) == r
      && forall j :: 0 <= j < found.value ==> refinerOf(entries[j]) != r)
    ensures found.None? ==> forall j :: 0 <= j < |entries| ==> refinerOf(entries[j]) != r
  {
    if entries == [] then None
    else if refinerOf(entries[0]) == r then Some(0)
    else match FindRefiner(entries[1..], refinerOf, r) case Some(j) => Some(j + 1) case None => None
  }

  /** The refiner of a summary entry. */
  function SummaryRefiner(e: SummaryEntry): string { e.refiner }

  /** The refiner of an instances entry. */
  function InstancesRefiner(e: InstanceEntry): string { e.refiner }

  /**
   * The tallies in the middle of prompt `p`: the entries follow `names`, and
   * those of the refiners in `done` already count `p`.
   */
  ghost predicate Partial(st: map<int, Status>, prompts: seq<PromptReport>, p: PromptReport, done: seq<string>,
                          names: seq<string>, summary: seq<SummaryEntry>, instances: seq<InstanceEntry>)
  {
    && |summary| == |names| && |instances| == |names|
    && forall j :: 0 <= j < |names| ==>
         && summary[j] == (if names[j] in done then Bump(st, p, EntryOf(st, prompts, names[j])) else EntryOf(st, prompts, names[j]))
         && instances[j] == (if names[j] in done then BumpInstances(st, p, InstancesOf(st, prompts, names[j]))
                             else InstancesOf(st, prompts, names[j]))
  }

  /** A refiner met for the first time gets empty entries at the end. */
  lemma PartialNew(st: map<int, Status>, prompts: seq<PromptReport>, p: PromptReport, done: seq<string>,
                   names: seq<string>, summary: seq<SummaryEntry>, instances: seq<InstanceEntry>, r: string)
    requires Partial(st, prompts, p, done, names, summary, instances)
    requires r !in AllRefiners(prompts) && r !in done
    ensures Partial(st, prompts, p, done, names + [r], summary + [SummaryEntry(r, 0, 0, 0)], instances + [InstanceEntry(r, [], [])])
  {
    EntryAbsent(st, prompts, r);
  }

  /** Counting refiner `r` of `p` at its entry `j`. */
  lemma PartialCount(st: map<int, Status>, prompts: seq<PromptReport>, p: PromptReport, done: seq<string>,
                     names: seq<string>, summary: seq<SummaryEntry>, instances: seq<InstanceEntry>, r: string, j: nat)
    requires Partial(st, prompts, p, done, names, summary, instances)
    requires NoDuplicates(names) && j < |names| && names[j] == r && r !in done
    ensures Partial(st, prompts, p, done + [r], names,
                    summary[j := Bump(st, p, summary[j])], instances[j := BumpInstances(st, p, instances[j])])
  {
  }

  lemma NamesSnoc(prompts: seq<PromptReport>, done: seq<string>, r: string)
    ensures Dedup(AllRefiners(prompts) + (done + [r]))
         == if r in Dedup(AllRefiners(prompts) + done) then Dedup(AllRefiners(prompts) + done)
            else Dedup(AllRefiners(prompts) + done) + [r]
  {
    DedupSnoc(AllRefiners(prompts) + done, r);
    assert AllRefiners(prompts) + done + [r] == AllRefiners(prompts) + (done + [r]);
  }

  /** Lines 95-109: a refiner met for the first time gets empty entries at the end. */
  method AddRefiner(st: map<int, Status>, p: PromptReport, refiner: string,
                    summary: seq<SummaryEntry>, instances: seq<InstanceEntry>,
                    ghost prompts: seq<PromptReport>, ghost done: seq<string>)
    returns (summary': seq<SummaryEntry>, instances': seq<InstanceEntry>)
    requires refiner !in done
    requires Partial(st, prompts, p, done, Dedup(AllRefiners(prompts) + done), summary, instances)
    ensures Partial(st, prompts, p, done, Dedup(AllRefiners(prompts) + (done + [refiner])), summary', instances')
  {
    ghost var names := Dedup(AllRefiners(prompts) + done);
    NamesSnoc(prompts, done, refiner);
    summary', instances' := summary, instances;
    if FindRefiner(summary, SummaryRefiner, refiner).None? {
      assert refiner !in names;
      PartialNew(st, prompts, p, done, names, summary, instances, refiner);
      summary' := summary + [SummaryEntry(refiner, 0, 0, 0)];
      instances' := instances + [InstanceEntry(refiner, [], [])];
    }
  }

  /**
   * Lines 95-141 for one refiner of `p`: find or add its entries, then count
   * `p` in them.
   */
  method CountRefiner(st: map<int, Status>, p: PromptReport, refiner: string,
                      summary: seq<SummaryEntry>, instances: seq<InstanceEntry>,
                      ghost prompts: seq<PromptReport>, ghost done: seq<string>)
    returns (summary': seq<SummaryEntry>, instances': seq<InstanceEntry>)
    requires refiner !in done
    requires Partial(st, prompts, p, done, Dedup(AllRefiners(prompts) + done), summary, instances)
    ensures Partial(st, prompts, p, done + [refiner], Dedup(AllRefiners(prompts) + (done + [refiner])), summary', instances')
  {
    summary', instances' := AddRefiner(st, p, refiner, summary, instances, prompts, done);
    ghost var names := Dedup(AllRefiners(prompts) + (done + [refiner]));
    assert refiner in names;
    var si := FindRefiner(summary', SummaryRefiner, refiner).value;
    var ii := FindRefiner(instances', InstancesRefiner, refiner).value;
    assert names[si] == refiner && names[ii] == refiner;
    assert si == ii;
    var existingSummary, existingInstance := CountPrompt(st, p, summary'[si], instances'[ii]);
    PartialCount(st, prompts, p, done, names, summary', instances', refiner, si);
    summary' := summary'[si := existingSummary];
    instances' := instances'[ii := existingInstance];
  }

  /** Lines 116-141: count prompt `p` in the entries of one of its refiners. */
  method CountPrompt(st: map<int, Status>, p: PromptReport, existingSummary: SummaryEntry, existingInstance: InstanceEntry)
    returns (summary: SummaryEntry, instance: InstanceEntry)
    ensures summary == Bump(st, p, existingSummary) && instance == BumpInstances(st, p, existingInstance)
  {
    summary, instance := existingSummary, existingInstance;
    var status := Get(st, p.id);
    if status == Some(Passed) {
      if forall k :: 0 <= k < |p.provenance| ==> Get(st, p.provenance[k].originalPrompt) != Some(Passed) {
        summary := summary.(successful := summary.successful + 1);
        instance := instance.(successInstances := instance.successInstances + [Instance(Parents(p.provenance), p.id)]);
      }
    } else if status == Some(AssertionFailed) {
      if forall k :: 0 <= k < |p.provenance| ==> Get(st, p.provenance[k].originalPrompt) == Some(Failed) {
        summary := summary.(improvedError := summary.improvedError + 1);
        instance := instance.(improvedInstances := instance.improvedInstances + [Instance(Parents(p.provenance), p.id)]);
      }
    }
    summary := summary.(tried := summary.tried + 1);
  }

  /** The entries hold, for each refiner in first-seen order, its tallies over all the prompts. */
  ghost predicate Tallied(st: map<int, Status>, prompts: seq<PromptReport>, summary: seq<SummaryEntry>, instances: seq<InstanceEntry>)
  {
    var names := Names(prompts);
    && |summary| == |names| && |instances| == |names|
    && forall j :: 0 <= j < |names| ==>
         summary[j] == EntryOf(st, prompts, names[j]) && instances[j] == InstancesOf(st, prompts, names[j])
  }

  lemma PartialStart(st: map<int, Status>, prompts: seq<PromptReport>, p: PromptReport,
                     summary: seq<SummaryEntry>, instances: seq<InstanceEntry>)
    requires Tallied(st, prompts, summary, instances)
    ensures Partial(st, prompts, p, [], Dedup(AllRefiners(prompts) + []), summary, instances)
  {
    assert AllRefiners(prompts) + [] == AllRefiners(prompts);
  }

  lemma PartialDone(st: map<int, Status>, prompts: seq<PromptReport>, p: PromptReport,
                    summary: seq<SummaryEntry>, instances: seq<InstanceEntry>)
    requires Partial(st, prompts, p, RefinersOf(p), Dedup(AllRefiners(prompts) + RefinersOf(p)), summary, instances)
    ensures Tallied(st, prompts + [p], summary, instances)
  {
    assert (prompts + [p])[..|prompts|] == prompts;
    assert AllRefiners(prompts + [p]) == AllRefiners(prompts) + RefinersOf(p);
    var names := Names(prompts + [p]);
    forall j | 0 <= j < |names|
      ensures summary[j] == EntryOf(st, prompts + [p], names[j]) && instances[j] == InstancesOf(st, prompts + [p], names[j])
    {
      EntryStep(st, prompts, p, names[j]);
      InstancesStep(st, prompts, p, names[j]);
    }
  }

  /** Lines 94-142: count `prompt` for each of its distinct refiners. */
  method CountRefiners(st: map<int, Status>, prompt: PromptReport, summary: seq<SummaryEntry>, instances: seq<InstanceEntry>,
                       ghost prompts: seq<PromptReport>)
    returns (summary': seq<SummaryEntry>, instances': seq<InstanceEntry>)
    requires Tallied(st, prompts, summary, instances)
    ensures Tallied(st, prompts + [prompt], summary', instances')
  {
    var refiners := RefinersOf(prompt);
    summary', instances' := summary, instances;
    PartialStart(st, prompts, prompt, summary', instances');
    for k := 0 to |refiners|
      invariant Partial(st, prompts, prompt, refiners[..k], Dedup(AllRefiners(prompts) + refiners[..k]), summary', instances')
    {
      assert refiners[k] !in refiners[..k];
      assert refiners[..k + 1] == refiners[..k] + [refiners[k]];
      summary', instances' := CountRefiner(st, prompt, refiners[k], summary', instances', prompts, refiners[..k]);
    }
    assert refiners[..|refiners|] == refiners;
    PartialDone(st, prompts, prompt, summary', instances');
  }

  /** The `improvements` loop over the prompts and their distinct refiners. */
  method Tally(st: map<int, Status>, prompts: seq<PromptReport>) returns (summary: seq<SummaryEntry>, instances: seq<InstanceEntry>)
    ensures |summary| == |Names(prompts)| && |instances| == |Names(prompts)|
    ensures forall j :: 0 <= j < |summary| ==>
      summary[j] == EntryOf(st, prompts, Names(prompts)[j]) && instances[j] == InstancesOf(st, prompts, Names(prompts)[j])
  {
    summary, instances := [], [];
    for i := 0 to |prompts|
      invariant Tallied(st, prompts[..i], summary, instances)
    {
      summary, instances := CountRefiners(st, prompts[i], summary, instances, prompts[..i]);
      assert prompts[..i + 1] == prompts[..i] + [prompts[i]];
    }
    assert prompts[..|prompts|] == prompts;
  }

  /** The script once the reports are parsed: the summary and the instances, or the error it stops with. */
  method Report(tests: seq<TestReport>, prompts: seq<PromptReport>)
    returns (r: Result<(seq<SummaryEntry>, seq<InstanceEntry>)>)
    ensures PromptSuccessOf(TestsMapOf(tests), prompts).Failure? ==> r == Failure(MissingTestReport)
    ensures PromptSuccessOf(TestsMapOf(tests), prompts).Success? ==>
      var st := PromptSuccessOf(TestsMapOf(tests), prompts).value;
      && r.Success?
      && |r.value.0| == |Names(prompts)| && |r.value.1| == |Names(prompts)|
      && forall j :: 0 <= j < |Names(prompts)| ==>
           r.value.0[j] == EntryOf(st, prompts, Names(prompts)[j]) && r.value.1[j] == InstancesOf(st, prompts, Names(prompts)[j])
  {
    var testsMap := BuildTestsMap(tests);
    var promptSuccess := BuildPromptSuccess(testsMap, prompts);
    if promptSuccess.Failure? {
      PromptSuccessFailsWith(testsMap, prompts);
      return Failure(promptSuccess.error);
    }
    var summary, instances := Tally(promptSuccess.value, prompts);
    return Success((summary, instances));
  }

  lemma {:induction false} PromptSuccessFailsWith(testsMap: map<string, TestReport>, prompts: seq<PromptReport>)
    ensures PromptSuccessOf(testsMap, prompts).Failure? ==> PromptSuccessOf(testsMap, prompts).error == MissingTestReport
  {
    if prompts != [] {
      PromptSuccessFailsWith(testsMap, prompts[..|prompts| - 1]);
    }
  }

  // ---------------------------------------------------------------- lemmas

  /** The summary names each refiner some prompt's provenance mentions, once. */
  lemma NamesAreRefiners(prompts: seq<PromptReport>, r: string)
    ensures NoDuplicates(Names(prompts))
    ensures r in Names(prompts) <==> exists i :: 0 <= i < |prompts| && Mentions(prompts[i], r)
  {
    AllRefinersMembers(prompts, r);
  }

  /** A prompt counts for a refiner at most once, as a success or as an improvement but not both. */
  lemma {:induction false} CountsBounded(st: map<int, Status>, prompts: seq<PromptReport>, r: string)
    ensures EntryOf(st, prompts, r).successful + EntryOf(st, prompts, r).improvedError <= EntryOf(st, prompts, r).tried
  {
    if prompts != [] {
      CountsBounded(st, prompts[..|prompts| - 1], r);
    }
  }

  /** Each counted success and improvement has its instance, and the other way round. */
  lemma {:induction false} InstancesCounted(st: map<int, Status>, prompts: seq<PromptReport>, r: string)
    ensures |InstancesOf(st, prompts, r).successInstances| == EntryOf(st, prompts, r).successful
    ensures |InstancesOf(st, prompts, r).improvedInstances| == EntryOf(st, prompts, r).improvedError
  {
    if prompts != [] {
      InstancesCounted(st, prompts[..|prompts| - 1], r);
    }
  }

  /**
   * A success instance of `r` is a prompt mentioning `r` that passed while
   * none of its parents did; an improvement instance is one that failed on
   * an assertion while all its parents failed outright.
   */
  lemma {:induction false} InstancesAreImprovements(st: map<int, Status>, prompts: seq<PromptReport>, r: string, x: Instance)
    ensures x in InstancesOf(st, prompts, r).successInstances ==>
      exists i :: 0 <= i < |prompts| && Mentions(prompts[i], r) && Succeeded(st, prompts[i])
        && x == Instance(Parents(prompts[i].provenance), prompts[i].id)
    ensures x in InstancesOf(st, prompts, r).improvedInstances ==>
      exists i :: 0 <= i < |prompts| && Mentions(prompts[i], r) && Improved(st, prompts[i])
        && x == Instance(Parents(prompts[i].provenance), prompts[i].id)
  {
    if prompts != [] {
      var init := prompts[..|prompts| - 1];
      InstancesAreImprovements(st, init, r, x);
      assert forall i :: 0 <= i < |init| ==> init[i] == prompts[i];
    }
  }
}
