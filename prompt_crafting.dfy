/**
 * Structured prompts, their assembly into request text, and the refiners
 * that derive new prompts from the outcome of a generated test
 * (src/promptCrafting.ts).
 */
module PromptCrafting {
  import opened Wrappers
  import opened Text
  import opened Syntax

  /** At most this many retrieved signatures are shown in a prompt. */
  const MaxAdditionalSignatures: nat := 3
  /** Retrieval of API references is attempted at most this many times along one refinement chain. */
  const MaxRetrievalIterations: nat := 3
  /** `truncateIfLong` keeps at most this many lines. */
  const MaxFragmentLines: nat := 30
  /** The placeholder suite and test headers `completeTest` uses, so that identical tests of different functions coincide. */
  const StubHeaders: string := "describe('test suite', function() {\n" + "    it('test case', function(done) {\n"

  datatype PromptOptions = PromptOptions(
    includeSnippets: bool,
    includeDocComment: bool,
    includeFunctionBody: bool,
    ragTries: int)

  function DefaultPromptOptions(): PromptOptions
  {
    PromptOptions(false, false, false, 0)
  }

  /** The function under test, as the API explorer describes it. */
  datatype APIFunction = APIFunction(
    packageName: string,
    accessPath: string,
    functionName: string,
    signature: string,
    docComment: Option<string>,
    implementation: string)

  datatype TestError = TestError(message: string, stack: Option<string>)

  /** The outcome of validating one generated test. */
  datatype TestOutcome = Passed | Failed(err: TestError)

  /** What a `RetryPromptFailedTest` adds to the prompt it was derived from. */
  datatype RetryContext = RetryContext(body: string, err: string, optionalText: string)

  /** The three options a refiner can switch on. */
  datatype Flag = Snippets | DocComment | FunctionBody

  predicate Enabled(o: PromptOptions, f: Flag)
  {
    match f
    case Snippets => o.includeSnippets
    case DocComment => o.includeDocComment
    case FunctionBody => o.includeFunctionBody
  }

  /** `{...o, includeX: true}` */
  function Enable(o: PromptOptions, f: Flag): (r: PromptOptions)
    ensures Enabled(r, f)
    ensures forall g :: g != f ==> Enabled(r, g) == Enabled(o, g)
    ensures r.ragTries == o.ragTries
  {
    match f
    case Snippets => o.(includeSnippets := true)
    case DocComment => o.(includeDocComment := true)
    case FunctionBody => o.(includeFunctionBody := true)
  }

  /**
   * The immutable part of a prompt: the constructor's arguments. A
   * `RetryPromptFailedTest` is the same with `retry` set; its constructor
   * passes no additional signatures to the base class.
   */
  datatype PromptData = PromptData(
    fun: APIFunction,
    usageSnippets: seq<string>,
    options: PromptOptions,
    additionalSignatures: seq<string>,
    retry: Option<RetryContext>)
  {
    predicate IsRetry() { retry.Some? }

    predicate FunctionHasDocComment() { fun.docComment.Some? }

    /** The import preamble (the `dedent` template written out). */
    function Imports(h: Helpers): string
    {
      "let mocha = require('mocha');\nlet assert = require('assert');\nlet "
      + h.sanitizePackageName(fun.packageName) + " = require('" + fun.packageName + "');\n"
    }

    function Signature(h: Helpers): string
    {
      h.commentOut(fun.signature)
    }

    function FunctionBody(h: Helpers): string
    {
      if options.includeFunctionBody then h.commentOut(fun.implementation) else ""
    }

    function SuiteHeader(h: Helpers): string
    {
      "describe('test " + h.sanitizePackageName(fun.packageName) + "', function() {\n"
    }

    function TestHeader(): string
    {
      "    it('test " + fun.accessPath + "', function(done) {\n"
    }

    /**
     * What `completeTest` hands to `closeBrackets`: the imports, the suite
     * and test headers (placeholders when `stubOutHeaders`), then the body
     * with its first line indented.
     */
    function Unclosed(h: Helpers, body: string, stubOutHeaders: bool): string
    {
      Imports(h) + (if stubOutHeaders then StubHeaders else SuiteHeader(h) + TestHeader()) + IndentFirstLine(body) + "\n"
    }

    function DocCommentText(h: Helpers): string
    {
      if options.includeDocComment then h.trimAndCombineDocComment(fun.docComment.GetOr("")) else ""
    }

    /** The `// API Reference:` block. */
    function RelevantSignatures(h: Helpers): string
    {
      if 0 < options.ragTries <= MaxRetrievalIterations && |additionalSignatures| > 0 then
        "// API Reference:\n"
        + Concat(Take(Map(h.commentOut, additionalSignatures),
                      if |additionalSignatures| < MaxAdditionalSignatures then |additionalSignatures|
                      else MaxAdditionalSignatures))
      else ""
    }

    /** `assembleUsageSnippets` */
    function UsageSnippets(): string
    {
      if !options.includeSnippets then ""
      else Concat(seq(|usageSnippets|, k requires 0 <= k < |usageSnippets| => UsageEntry(k, usageSnippets[k])))
    }

    /** `Prompt.assemble` */
    function BaseAssemble(h: Helpers): string
    {
      Imports(h) + UsageSnippets() + TruncateIfLong(DocCommentText(h)) + Signature(h)
      + TruncateIfLong(FunctionBody(h)) + RelevantSignatures(h) + SuiteHeader(h) + TestHeader()
    }

    /** `RetryPromptFailedTest.assemble` */
    function RetryAssemble(h: Helpers, ctx: RetryContext): string
    {
      var raw := BaseAssemble(h) + ctx.body + "\n";
      var failingTest :=
        match h.closeBrackets(raw)
        case Some(src) => ReplaceAtEnd(src, "})})", "    })\n")
        case None => raw + "    })\n";
      failingTest
      + "    // the test above fails with the following error:\n"
      + ErrorComment(ctx.err)
      + ExtraText(h, ctx.optionalText)
      + "    // fixed test:\n"
      + TestHeader()
    }

    /** The text sent to the model; dynamic dispatch on the prompt's class. */
    function Assemble(h: Helpers): string
    {
      match retry
      case None => BaseAssemble(h)
      case Some(ctx) => RetryAssemble(h, ctx)
    }

    /** `completeTest(body, stubOutHeaders)`: `None` stands for `undefined`. */
    function CompleteTest(h: Helpers, body: string, stubOutHeaders: bool): Option<string>
    {
      match h.closeBrackets(Unclosed(h, body, stubOutHeaders))
      case None => None
      case Some(src) => Some(ReplaceAtEnd(src, "})})", "    })\n})"))
    }
  }

  /** `// usage #k` followed by the snippet's lines, each commented out. */
  function UsageEntry(index: nat, snippet: string): string
  {
    "// usage #" + NatToString(index + 1) + "\n" + Concat(Map(line => "// " + line + "\n", Split(snippet, '\n')))
  }

  /** `truncateIfLong` */
  function TruncateIfLong(body: string): string
  {
    var lines := Split(body, '\n');
    if |lines| > MaxFragmentLines then Join(lines[..MaxFragmentLines], "\n") + "\n" else body
  }

  /** `s.replace(/<pattern>$/, replacement)` for a literal pattern. */
  function ReplaceAtEnd(s: string, pattern: string, replacement: string): string
  {
    if EndsWith(s, pattern) then s[..|s| - |pattern|] + replacement else s
  }

  /** `body.replace(/^(?=\S)/, " ".repeat(8))` */
  function IndentFirstLine(body: string): string
  {
    if |body| > 0 && !IsWhitespace(body[0]) then "        " + body else body
  }

  function ErrorComment(err: string): string
  {
    if '\n' in err then Join(Map(line => "    // " + line, Split(TruncateIfLong(err), '\n')), "\n") + "\n"
    else "    // " + err + "\n"
  }

  function ExtraText(h: Helpers, optionalText: string): string
  {
    if '\n' in optionalText then
      Join(Map(h.commentOut, Take(Split(optionalText, '\n'), MaxAdditionalSignatures)), "\n") + "\n"
    else ""
  }

  // ------------------------------------------------------------------ refiners

  /** The refiner classes, by the `name` each reports. */
  datatype Refiner =
    | SnippetIncluder
    | RetryWithError
    | DocCommentIncluder
    | FunctionBodyIncluder
    | APIReferenceIncluder
    | RetryWithAPIReference
  {
    function Name(): string
    {
      match this
      case SnippetIncluder => "SnippetIncluder"
      case RetryWithError => "RetryWithError"
      case DocCommentIncluder => "DocCommentIncluder"
      case FunctionBodyIncluder => "FunctionBodyIncluder"
      case APIReferenceIncluder => "APIReferenceIncluder"
      case RetryWithAPIReference => "RetryWithAPIReference"
    }

    /** The refiners whose work is done by `refineAsync` (their `refine` returns nothing). */
    predicate IsAsync()
    {
      APIReferenceIncluder? || RetryWithAPIReference?
    }
  }

  /** Whether the content a flag would add exists for this prompt's function. */
  predicate ContentAvailable(p: PromptData, f: Flag)
  {
    match f
    case Snippets => |p.usageSnippets| > 0
    case DocComment => p.FunctionHasDocComment()
    case FunctionBody => p.fun.implementation != ""
  }

  /**
   * `SnippetIncluder`, `DocCommentIncluder` and `FunctionBodyIncluder`:
   * a fresh prompt for the same function and snippets with one more option on.
   */
  function Include(original: PromptData, f: Flag): (r: seq<PromptData>)
    ensures |r| <= 1
    ensures r == [] <==> Enabled(original.options, f) || !ContentAvailable(original, f)
    ensures forall q :: q in r ==>
      && q.fun == original.fun && q.usageSnippets == original.usageSnippets
      && Enabled(q.options, f) && !Enabled(original.options, f)
      && (forall g :: g != f ==> Enabled(q.options, g) == Enabled(original.options, g))
      && q.options.ragTries == original.options.ragTries
      && q.additionalSignatures == [] && !q.IsRetry()
  {
    if !Enabled(original.options, f) && ContentAvailable(original, f) then
      [PromptData(original.fun, original.usageSnippets, Enable(original.options, f), [], None)]
    else []
  }

  /** The error messages taken to signal a call to an API member that does not exist. */
  predicate MentionsMissingApi(message: string)
  {
    Includes(message, "is not a function") || Includes(message, "of undefined")
  }

  /** `RetryWithError.refine` */
  function RetryOnFailure(original: PromptData, completion: string, outcome: TestOutcome): (r: seq<PromptData>)
    ensures |r| <= 1
    ensures r == [] <==> original.IsRetry() || outcome.Passed?
    ensures forall q :: q in r ==>
      && q.fun == original.fun && q.usageSnippets == original.usageSnippets
      && q.options == original.options && q.additionalSignatures == []
      && q.retry == Some(RetryContext(completion, outcome.err.message, ""))
  {
    if !original.IsRetry() && outcome.Failed? then
      [PromptData(original.fun, original.usageSnippets, original.options, [],
                  Some(RetryContext(completion, outcome.err.message, "")))]
    else []
  }

  /** The guard shared by `APIReferenceIncluder` and `RetryWithAPIReference`. */
  predicate RetrievalApplies(original: PromptData, outcome: TestOutcome)
  {
    original.options.ragTries < MaxRetrievalIterations && outcome.Failed? && MentionsMissingApi(outcome.err.message)
  }

  /**
   * `APIReferenceIncluder.refineAsync`, given the signatures the embedding
   * search ranked (best first) for this failure.
   */
  function AddApiReference(original: PromptData, outcome: TestOutcome, ranked: seq<string>): (r: seq<PromptData>)
    ensures |r| <= 1
    ensures r == [] <==> !RetrievalApplies(original, outcome)
    ensures forall q :: q in r ==>
      && q.fun == original.fun && q.usageSnippets == original.usageSnippets
      && q.options == original.options.(ragTries := original.options.ragTries + 1)
      && q.additionalSignatures == ranked && !q.IsRetry()
  {
    if RetrievalApplies(original, outcome) then
      [PromptData(original.fun, original.usageSnippets,
                  original.options.(ragTries := original.options.ragTries + 1), ranked, None)]
    else []
  }

  /** `RetryWithAPIReference.refineAsync`, given the ranked signatures. */
  function RetryWithApiReference(original: PromptData, completion: string, outcome: TestOutcome, ranked: seq<string>)
    : (r: seq<PromptData>)
    ensures |r| <= 1
    ensures r == [] <==> !RetrievalApplies(original, outcome)
    ensures forall q :: q in r ==>
      && q.options == original.options && q.IsRetry()
      && q.retry.value.optionalText == "The following are available:\n" + Join(ranked, "\n")
  {
    if RetrievalApplies(original, outcome) then
      [PromptData(original.fun, original.usageSnippets, original.options, [],
                  Some(RetryContext(completion, outcome.err.message,
                                    "The following are available:\n" + Join(ranked, "\n"))))]
    else []
  }

  /** `refiner.refine(original, completion, outcome)` */
  function RefineSync(r: Refiner, original: PromptData, completion: string, outcome: TestOutcome): seq<PromptData>
  {
    match r
    case SnippetIncluder => Include(original, Snippets)
    case DocCommentIncluder => Include(original, DocComment)
    case FunctionBodyIncluder => Include(original, FunctionBody)
    case RetryWithError => RetryOnFailure(original, completion, outcome)
    case APIReferenceIncluder => []
    case RetryWithAPIReference => []
  }

  /** `refiner.refineAsync(...)` for the asynchronous refiners. */
  function RefineAsync(r: Refiner, original: PromptData, completion: string, outcome: TestOutcome, ranked: seq<string>)
    : seq<PromptData>
    requires r.IsAsync()
  {
    match r
    case APIReferenceIncluder => AddApiReference(original, outcome, ranked)
    case RetryWithAPIReference => RetryWithApiReference(original, completion, outcome, ranked)
  }

  // ---------------------------------------------------------------- provenance

  /** How a prompt was derived: from which prompt, for which test, by which refiner. */
  datatype Provenance = Provenance(originalPrompt: Prompt, testId: int, refiner: string)

  /** A prompt object: its immutable structure and its append-only provenance list. */
  class Prompt {
    const data: PromptData
    var provenance: seq<Provenance>

    constructor (data: PromptData)
      ensures this.data == data && provenance == []
    {
      this.data := data;
      provenance := [];
    }

    /** `withProvenance(...infos)`: appends, renames the new last entry if it names the API-reference refiner, returns `this`. */
    method WithProvenance(infos: seq<Provenance>) returns (r: Prompt)
      modifies this
      ensures r == this
      ensures provenance == TagLastApiReference(old(provenance) + infos, data.options.ragTries)
    {
      provenance := provenance + infos;
      if |provenance| > 0 && StartsWith(provenance[|provenance| - 1].refiner, "APIReferenceIncluder") {
        var last := provenance[|provenance| - 1];
        provenance := provenance[|provenance| - 1 := last.(refiner := last.refiner + " " + IntToString(data.options.ragTries))];
      }
      r := this;
    }
  }

  /** The list `withProvenance` leaves behind. */
  function TagLastApiReference(ps: seq<Provenance>, ragTries: int): seq<Provenance>
  {
    if |ps| > 0 && StartsWith(ps[|ps| - 1].refiner, "APIReferenceIncluder") then
      ps[|ps| - 1 := ps[|ps| - 1].(refiner := ps[|ps| - 1].refiner + " " + IntToString(ragTries))]
    else ps
  }

  // --------------------------------------------------------------- properties

  /** The number of lines `truncateIfLong` keeps, and that it keeps the first ones. */
  lemma {:induction false} TruncateIfLongKeepsPrefix(body: string)
    ensures StartsWith(body, TruncateIfLong(body))
    ensures |Split(body, '\n')| <= MaxFragmentLines ==> TruncateIfLong(body) == body
    ensures |Split(body, '\n')| > MaxFragmentLines ==>
      Split(TruncateIfLong(body), '\n') == Split(body, '\n')[..MaxFragmentLines] + [""]
  {
    var lines := Split(body, '\n');
    if |lines| > MaxFragmentLines {
      var head, tail := lines[..MaxFragmentLines], lines[MaxFragmentLines..];
      assert lines == head + tail;
      JoinSplit(body, '\n');
      JoinAppend(head, tail, "\n");
      PrefixOfConcat(Join(head, "\n") + "\n", Join(tail, "\n"));
      JoinAppend(head, [""], "\n");
      assert Join([""], "\n") == "";
      assert TruncateIfLong(body) == Join(head + [""], "\n");
      assert forall i :: 0 <= i < |head + [""]| ==> '\n' !in (head + [""])[i];
      SplitJoin(head + [""], '\n');
      assert Split(TruncateIfLong(body), '\n') == head + [""];
    } else {
      assert body[..|body|] == body;
    }
  }

  /** Snippet number k (counted from 1) is headed by `// usage #k`, and each of its lines is commented out. */
  lemma UsageEntryLines(index: nat, snippet: string)
    ensures Split(UsageEntry(index, snippet), '\n')
         == ["// usage #" + NatToString(index + 1)] + Map(line => "// " + line, Split(snippet, '\n')) + [""]
  {
    var header := "// usage #" + NatToString(index + 1);
    var commented := Map(line => "// " + line, Split(snippet, '\n'));
    assert Map(line => "// " + line + "\n", Split(snippet, '\n')) == Map(line => line + "\n", commented);
    TerminatedLinesAreJoined(commented);
    JoinAppend([header], commented + [""], "\n");
    assert [header] + (commented + [""]) == [header] + commented + [""];
    var all := [header] + commented + [""];
    assert '\n' !in header by {
      assert '\n' !in NatToString(index + 1);
    }
    assert forall i :: 0 <= i < |all| ==> '\n' !in all[i];
    SplitJoin(all, '\n');
  }

  /** Fragments are empty unless their option is on; the usage block is the numbered entries in order. */
  lemma FragmentsFollowOptions(p: PromptData, h: Helpers)
    ensures !p.options.includeSnippets ==> p.UsageSnippets() == ""
    ensures !p.options.includeDocComment ==> TruncateIfLong(p.DocCommentText(h)) == ""
    ensures !p.options.includeFunctionBody ==> TruncateIfLong(p.FunctionBody(h)) == ""
    ensures p.options.includeSnippets && |p.usageSnippets| > 0 ==>
      StartsWith(p.UsageSnippets(), UsageEntry(0, p.usageSnippets[0]))
  {
    assert TruncateIfLong("") == "";
    if p.options.includeSnippets && |p.usageSnippets| > 0 {
      var entries := seq(|p.usageSnippets|, k requires 0 <= k < |p.usageSnippets| => UsageEntry(k, p.usageSnippets[k]));
      PrefixOfConcat(entries[0], Concat(entries[1..]));
    }
  }

  /** The API-reference block appears exactly when retrieval ran and found signatures, and shows at most three. */
  lemma ApiReferenceBlock(p: PromptData, h: Helpers)
    ensures p.RelevantSignatures(h) != "" <==>
      0 < p.options.ragTries <= MaxRetrievalIterations && |p.additionalSignatures| > 0
    ensures p.RelevantSignatures(h) != "" ==>
      exists k :: 1 <= k <= MaxAdditionalSignatures && k <= |p.additionalSignatures|
        && p.RelevantSignatures(h) == "// API Reference:\n" + Concat(Map(h.commentOut, p.additionalSignatures[..k]))
  {
    if p.RelevantSignatures(h) != "" {
      var n := |p.additionalSignatures|;
      var k := if n < MaxAdditionalSignatures then n else MaxAdditionalSignatures;
      assert Take(Map(h.commentOut, p.additionalSignatures), k) == Map(h.commentOut, p.additionalSignatures[..k]);
    }
  }

  /** An assembled plain prompt starts with the imports; every assembled prompt ends with the test header. */
  lemma AssembleFrame(p: PromptData, h: Helpers)
    ensures !p.IsRetry() ==> StartsWith(p.Assemble(h), p.Imports(h))
    ensures EndsWith(p.Assemble(h), p.TestHeader())
  {
    var imports, header := p.Imports(h), p.TestHeader();
    match p.retry {
      case None =>
        var s1 := imports + p.UsageSnippets();
        var s2 := s1 + TruncateIfLong(p.DocCommentText(h));
        var s3 := s2 + p.Signature(h);
        var s4 := s3 + TruncateIfLong(p.FunctionBody(h));
        var s5 := s4 + p.RelevantSignatures(h);
        var s6 := s5 + p.SuiteHeader(h);
        PrefixOfConcat(imports, p.UsageSnippets());
        PrefixExtends(s1, TruncateIfLong(p.DocCommentText(h)), imports);
        PrefixExtends(s2, p.Signature(h), imports);
        PrefixExtends(s3, TruncateIfLong(p.FunctionBody(h)), imports);
        PrefixExtends(s4, p.RelevantSignatures(h), imports);
        PrefixExtends(s5, p.SuiteHeader(h), imports);
        PrefixExtends(s6, header, imports);
        SuffixOfConcat(s6, header);
      case Some(ctx) =>
        var raw := p.BaseAssemble(h) + ctx.body + "\n";
        var failingTest :=
          match h.closeBrackets(raw)
          case Some(src) => ReplaceAtEnd(src, "})})", "    })\n")
          case None => raw + "    })\n";
        var y := failingTest + "    // the test above fails with the following error:\n"
          + ErrorComment(ctx.err) + ExtraText(h, ctx.optionalText) + "    // fixed test:\n";
        SuffixOfConcat(y, header);
    }
  }

  /** Switching on snippets that exist changes the assembled text, so deduplication by text keeps both prompts. */
  lemma SnippetsChangeText(p: PromptData, h: Helpers)
    requires !p.IsRetry() && !p.options.includeSnippets && |p.usageSnippets| > 0
    ensures p.(options := p.options.(includeSnippets := true)).Assemble(h) != p.Assemble(h)
  {
    var q := p.(options := p.options.(includeSnippets := true));
    FragmentsFollowOptions(q, h);
    assert |q.UsageSnippets()| > 0 by {
      assert |UsageEntry(0, q.usageSnippets[0])| > 0;
    }
    assert |q.Assemble(h)| > |p.Assemble(h)|;
  }

  /** With headers stubbed out, the completed test depends only on the package and the body, not on the prompt. */
  lemma CompleteTestIgnoresPrompt(p: PromptData, q: PromptData, h: Helpers, body: string)
    requires p.fun.packageName == q.fun.packageName
    ensures p.CompleteTest(h, body, true) == q.CompleteTest(h, body, true)
  {
    assert p.Imports(h) == q.Imports(h);
  }

  /** `completeTest` yields `undefined` exactly when `closeBrackets` does. */
  lemma CompleteTestUndefined(p: PromptData, h: Helpers, body: string, stubOutHeaders: bool)
    ensures p.CompleteTest(h, body, stubOutHeaders).None? <==> h.closeBrackets(p.Unclosed(h, body, stubOutHeaders)).None?
  {
  }

  /** Switching an option on twice produces nothing the second time. */
  lemma IncludeIdempotent(p: PromptData, f: Flag)
    ensures forall q :: q in Include(p, f) ==> Include(q, f) == []
  {
  }

  /** A retry prompt is never wrapped into another retry. */
  lemma RetryNeverNests(p: PromptData, completion: string, outcome: TestOutcome, completion2: string, outcome2: TestOutcome)
    ensures forall q :: q in RetryOnFailure(p, completion, outcome) ==> RetryOnFailure(q, completion2, outcome2) == []
  {
  }

  /**
   * How far a prompt is from one that no refiner of the search can extend:
   * two for each option still off or retrieval round still available, and one
   * more for a prompt that is not a retry.
   */
  function Potential(p: PromptData): nat
    requires 0 <= p.options.ragTries <= MaxRetrievalIterations
  {
    var off := (if p.options.includeSnippets then 0 else 1)
             + (if p.options.includeDocComment then 0 else 1)
             + (if p.options.includeFunctionBody then 0 else 1);
    2 * (off + MaxRetrievalIterations - p.options.ragTries) + (if p.IsRetry() then 0 else 1)
  }

  const MaxPotential: nat := 13

  /** The refiners the search controller uses. */
  predicate SearchRefiner(r: Refiner)
  {
    !r.RetryWithAPIReference?
  }

  /**
   * Every prompt a search refiner derives keeps `ragTries` within
   * 0..MaxRetrievalIterations and has strictly smaller potential: so the
   * worklist search cannot run forever, and `ragTries` starting at 0 never
   * exceeds MaxRetrievalIterations.
   */
  lemma RefinementsDescend(r: Refiner, p: PromptData, completion: string, outcome: TestOutcome, ranked: seq<string>)
    requires SearchRefiner(r)
    requires 0 <= p.options.ragTries <= MaxRetrievalIterations
    ensures Potential(p) <= MaxPotential
    ensures forall q :: q in RefineSync(r, p, completion, outcome) ==>
      0 <= q.options.ragTries <= MaxRetrievalIterations && Potential(q) < Potential(p)
    ensures r.IsAsync() ==> forall q :: q in RefineAsync(r, p, completion, outcome, ranked) ==>
      0 <= q.options.ragTries <= MaxRetrievalIterations && Potential(q) < Potential(p)
  {
  }

  /** Provenance is append-only: earlier entries stay, new ones follow in order; only the last may gain a ` <ragTries>` suffix. */
  lemma ProvenanceAppendOnly(old_: seq<Provenance>, infos: seq<Provenance>, ragTries: int)
    ensures |TagLastApiReference(old_ + infos, ragTries)| == |old_| + |infos|
    ensures infos != [] ==> TagLastApiReference(old_ + infos, ragTries)[..|old_|] == old_
    ensures forall i :: 0 <= i < |old_| + |infos| - 1 ==>
      TagLastApiReference(old_ + infos, ragTries)[i] == (old_ + infos)[i]
    ensures |old_| + |infos| > 0 ==>
      var last := (old_ + infos)[|old_| + |infos| - 1];
      var tagged := TagLastApiReference(old_ + infos, ragTries)[|old_| + |infos| - 1];
      && tagged.originalPrompt == last.originalPrompt && tagged.testId == last.testId
      && tagged.refiner == (if StartsWith(last.refiner, "APIReferenceIncluder")
                            then last.refiner + " " + IntToString(ragTries) else last.refiner)
  {
  }

  /**
   * An entry naming the API-reference refiner is tagged with the receiving
   * prompt's `ragTries` each time it ends a merged list: merging it into a
   * first prompt and the tagged copy into a second tags it twice.
   */
  lemma RepeatedTagging(first: seq<Provenance>, second: seq<Provenance>, e: Provenance, k1: int, k2: int)
    requires StartsWith(e.refiner, "APIReferenceIncluder")
    ensures var once := e.(refiner := e.refiner + " " + IntToString(k1));
      && TagLastApiReference(first + [e], k1) == first + [once]
      && TagLastApiReference(second + [once], k2)
         == second + [e.(refiner := e.refiner + " " + IntToString(k1) + " " + IntToString(k2))]
  {
    var once := e.(refiner := e.refiner + " " + IntToString(k1));
    PrefixExtends(e.refiner, " " + IntToString(k1), "APIReferenceIncluder");
    assert StartsWith(once.refiner, "APIReferenceIncluder");
  }
}
