/**
 * The LLM client (src/codex.ts): option merging, the checks `query` makes
 * on a response, the rate-limit retry policy of `completions`, and the
 * post-processing of each completion (code-fence extraction and removal of
 * the lines the completion shares with the prompt).
 */
module CodexClient {
  import opened Wrappers
  import opened Text
  import opened Syntax
  import opened CompletionModel

  // ------------------------------------------------------------- options

  /** `defaultPostOptions`. */
  function DefaultPostOptions(): PostOptions
  {
    PostOptions(Some("gpt-3.5-turbo-0125"), Some(100), Some("0"), Some(5), Some("1"))
  }

  function Pick<T>(base: Option<T>, over: Option<T>): Option<T>
  {
    if over.Some? then over else base
  }

  /** `{ ...base, ...over }`: every property `over` has replaces the one of `base`. */
  function Override(base: PostOptions, over: PostOptions): PostOptions
  {
    PostOptions(
      Pick(base.model, over.model),
      Pick(base.maxTokens, over.maxTokens),
      Pick(base.temperature, over.temperature),
      Pick(base.n, over.n),
      Pick(base.topP, over.topP))
  }

  /** The options a request is sent with: request options over instance options over the defaults. */
  function MergedOptions(instance: PostOptions, request: PostOptions): PostOptions
  {
    Override(Override(DefaultPostOptions(), instance), request)
  }

  predicate Complete(o: PostOptions)
  {
    o.model.Some? && o.maxTokens.Some? && o.temperature.Some? && o.n.Some? && o.topP.Some?
  }

  /**
   * Every option of a request is set, and each one comes from the request
   * when the request has it, else from the instance, else from the defaults.
   */
  lemma MergePrecedence(instance: PostOptions, request: PostOptions)
    ensures Complete(MergedOptions(instance, request))
    ensures var o := MergedOptions(instance, request);
      && (request.temperature.Some? ==> o.temperature == request.temperature)
      && (request.temperature.None? && instance.temperature.Some? ==> o.temperature == instance.temperature)
      && (request.temperature.None? && instance.temperature.None? ==> o.temperature == Some("0"))
      && (request.n.Some? ==> o.n == request.n)
      && (request.n.None? && instance.n.Some? ==> o.n == instance.n)
      && (request.n.None? && instance.n.None? ==> o.n == Some(5))
      && (request.model.None? && instance.model.None? ==> o.model == Some("gpt-3.5-turbo-0125"))
      && (request.maxTokens.None? && instance.maxTokens.None? ==> o.maxTokens == Some(100))
  {
  }

  /** Spreading is associative, so the two-step merge is one override by the combined options. */
  lemma OverrideAssociative(a: PostOptions, b: PostOptions, c: PostOptions)
    ensures Override(Override(a, b), c) == Override(a, Override(b, c))
  {
  }

  // ------------------------------------------------------------ responses

  datatype Choice = Choice(finishReason: string, content: string)

  /** The JSON body of a response; `None` stands for an absent property. */
  datatype ResponseData = ResponseData(
    error: Option<string>,
    choices: Option<seq<Choice>>,
    generatedText: string,
    totalTokens: Option<nat>)

  /** What `axios.post` does: throw with a message, or resolve to a response. */
  datatype Exchange =
    | Thrown(message: string)
    | Responded(status: int, statusText: string, data: Option<ResponseData>)

  /** The message of the `TypeError` a property read on `undefined` throws. */
  function UndefinedRead(property: string): string
  {
    "Cannot read properties of undefined (reading '" + property + "')"
  }

  function Contents(choices: seq<Choice>): (r: seq<string>)
    ensures |r| == |choices| && forall i :: 0 <= i < |choices| ==> r[i] == choices[i].content
  {
    seq(|choices|, i requires 0 <= i < |choices| => choices[i].content)
  }

  /** What `query` returns or throws for one exchange with the endpoint. */
  function ParseResponse(isStarCoder: bool, x: Exchange): (r: Result<CompletionSet>)
    ensures r.Success? ==>
      && x.Responded? && x.status == 200 && x.data.Some?
      && (x.data.value.error.None? || x.data.value.error.value == "")
      && x.data.value.totalTokens == Some(r.value.usedTokens)
      && NoDuplicates(r.value.completions)
    ensures r.Success? && isStarCoder ==> r.value.completions == [x.data.value.generatedText]
    ensures r.Success? && !isStarCoder ==>
      x.data.value.choices.Some?
      && forall c :: c in r.value.completions <==> exists i :: 0 <= i < |x.data.value.choices.value| && x.data.value.choices.value[i].content == c
    ensures x.Responded? && x.status == 200 && x.data.Some? && x.data.value.error.Some? && x.data.value.error.value != ""
      ==> r == Failure(x.data.value.error.value)
  {
    match x
    case Thrown(message) => Failure(message)
    case Responded(status, statusText, data) =>
      if status != 200 then Failure("Request failed with status " + IntToString(status) + " and message " + statusText)
      else if data.None? then Failure("Response data is empty")
      else if data.value.error.Some? && data.value.error.value != "" then Failure(data.value.error.value)
      // `json.choices || [{ text: "" }]`: the stand-in choice has no `message`
      else if !isStarCoder && data.value.choices.None? then Failure(UndefinedRead("content"))
      else if data.value.totalTokens.None? then Failure(UndefinedRead("total_tokens"))
      else
        var completions := if isStarCoder then [data.value.generatedText] else Dedup(Contents(data.value.choices.value));
        Success(CompletionSet(completions, data.value.totalTokens.value))
  }

  /** The text of the error axios throws for a `429 Too Many Requests` reply. */
  const RateLimitMarker := "Request failed with status code 429"

  predicate RateLimited(r: Result<CompletionSet>)
  {
    r.Failure? && Includes(r.error, RateLimitMarker)
  }

  // ------------------------------------------------------- post-processing

  predicate IsFence(line: string)
  {
    StartsWith(line, "```")
  }

  /** The index of the first fence line at or after `from`, or `|lines|` when there is none. */
  function NextFence(lines: seq<string>, from: nat): (r: nat)
    requires from <= |lines|
    ensures from <= r <= |lines|
    ensures r < |lines| ==> IsFence(lines[r])
    ensures forall j :: from <= j < r ==> !IsFence(lines[j])
    decreases |lines| - from
  {
    if from == |lines| then from
    else if IsFence(lines[from]) then from
    else NextFence(lines, from + 1)
  }

  /** A line that is not a fence line is not where the next fence line is. */
  lemma BeforeNextFence(lines: seq<string>, from: nat, i: nat)
    requires from <= i < |lines| && i <= NextFence(lines, from) && !IsFence(lines[i])
    ensures i < NextFence(lines, from)
  {
  }

  /** A line that ends the scan (a fence line, or the end of the lines) is where the next fence line is. */
  lemma AtNextFence(lines: seq<string>, from: nat, i: nat)
    requires from <= i <= |lines| && i <= NextFence(lines, from) && (i == |lines| || IsFence(lines[i]))
    ensures i == NextFence(lines, from)
  {
  }

  /** `line.trim().length > 0`: the line has a character that is not whitespace (`Text.TrimEmpty`). */
  predicate NonBlank(line: string)
  {
    !Blank(line)
  }

  function NonBlankLines(lines: seq<string>): seq<string>
  {
    if lines == [] then []
    else
      var init := NonBlankLines(lines[..|lines| - 1]);
      if NonBlank(lines[|lines| - 1]) then init + [lines[|lines| - 1]] else init
  }

  lemma NonBlankLinesSnoc(lines: seq<string>, line: string)
    ensures NonBlankLines(lines + [line]) == NonBlankLines(lines) + (if NonBlank(line) then [line] else [])
  {
    assert (lines + [line])[..|lines|] == lines;
  }

  /** The non-blank lines among `lines[lo..hi]`, in order, counted by index. */
  function NonBlankBetween(lines: seq<string>, lo: nat, hi: nat): seq<string>
    requires lo <= hi <= |lines|
    decreases hi
  {
    if hi == lo then []
    else NonBlankBetween(lines, lo, hi - 1) + (if NonBlank(lines[hi - 1]) then [lines[hi - 1]] else [])
  }

  lemma {:induction false} NonBlankBetweenSlice(lines: seq<string>, lo: nat, hi: nat)
    requires lo <= hi <= |lines|
    ensures NonBlankBetween(lines, lo, hi) == NonBlankLines(lines[lo..hi])
    decreases hi
  {
    if lo < hi {
      NonBlankBetweenSlice(lines, lo, hi - 1);
      SliceSnoc(lines, lo, hi - 1);
      NonBlankLinesSnoc(lines[lo..hi - 1], lines[hi - 1]);
    }
  }

  /**
   * The code of a completion: the non-blank lines between its first fence
   * line and the next one (or the end), each followed by a line break; a
   * completion without a fence line is taken whole.
   */
  function FencedCode(completion: string): string
  {
    var lines := Split(completion, '\n');
    var open := NextFence(lines, 0);
    if open == |lines| then completion
    else Terminated(NonBlankLines(lines[open + 1..NextFence(lines, open + 1)]))
  }

  /** Where the fence scan of `ScanFences` stands before looking at line `i`, with the lines kept so far. */
  ghost predicate ScanState(lines: seq<string>, started: bool, i: int, kept: seq<string>)
  {
    var open := NextFence(lines, 0);
    && 0 <= i <= |lines|
    && (!started ==> i <= open && kept == [])
    && (started ==> open < i <= NextFence(lines, open + 1) && kept == NonBlankBetween(lines, open + 1, i))
  }

  /** The first fence line starts the scan. */
  lemma ScanOpen(lines: seq<string>, i: int)
    requires ScanState(lines, false, i, []) && i < |lines| && IsFence(lines[i])
    ensures ScanState(lines, true, i + 1, [])
  {
    assert i == NextFence(lines, 0);
  }

  /** A line that is not a fence line is kept if the scan has started and it is non-blank. */
  lemma ScanKeep(lines: seq<string>, started: bool, i: int, kept: seq<string>, kept': seq<string>)
    requires ScanState(lines, started, i, kept) && i < |lines| && !IsFence(lines[i])
    requires kept' == if started && NonBlank(lines[i]) then kept + [lines[i]] else kept
    ensures ScanState(lines, started, i + 1, kept')
  {
    if started {
      BeforeNextFence(lines, NextFence(lines, 0) + 1, i);
    }
  }

  /** The scan ends at the second fence line or at the end of the lines. */
  lemma ScanDone(lines: seq<string>, started: bool, i: int, kept: seq<string>)
    requires ScanState(lines, started, i, kept)
    requires i == |lines| || (started && IsFence(lines[i]))
    ensures started <==> NextFence(lines, 0) < |lines|
    ensures started ==> kept == NonBlankLines(lines[NextFence(lines, 0) + 1..NextFence(lines, NextFence(lines, 0) + 1)])
  {
    if started {
      AtNextFence(lines, NextFence(lines, 0) + 1, i);
      NonBlankBetweenSlice(lines, NextFence(lines, 0) + 1, i);
    }
  }

  /** The code between the first two fence lines (or the end): the fence-extraction loop of `completions`. */
  method ScanFences(lines: seq<string>) returns (started: bool, codePart: string)
    ensures started <==> NextFence(lines, 0) < |lines|
    ensures started ==>
      codePart == Terminated(NonBlankLines(lines[NextFence(lines, 0) + 1..NextFence(lines, NextFence(lines, 0) + 1)]))
  {
    codePart := "";
    started := false;
    ghost var kept: seq<string> := [];
    var i := 0;
    while i < |lines|
      invariant ScanState(lines, started, i, kept) && codePart == Terminated(kept)
    {
      if IsFence(lines[i]) {
        if started {
          break;
        }
        ScanOpen(lines, i);
        started := true;
        i := i + 1;
        continue;
      }
      ghost var prev := kept;
      if started && NonBlank(lines[i]) {
        TerminatedSnoc(kept, lines[i]);
        codePart := codePart + lines[i] + "\n";
        kept := kept + [lines[i]];
      }
      ScanKeep(lines, started, i, prev, kept);
      i := i + 1;
    }
    ScanDone(lines, started, i, kept);
  }

  /** The post-processing step of `completions` that keeps a completion's fenced code. */
  method ExtractCode(completion: string) returns (codePart: string)
    ensures codePart == FencedCode(completion)
  {
    var started;
    started, codePart := ScanFences(Split(completion, '\n'));
    if !started {
      codePart := completion;
    }
  }

  /** Whether a completion line survives `removeSharedPart`. */
  predicate KeepLine(promptLines: seq<string>, line: string)
  {
    line !in promptLines && !StartsWith(Trim(line), "it(") && !StartsWith(Trim(line), "describe(")
  }

  function KeptLines(promptLines: seq<string>, lines: seq<string>): seq<string>
  {
    if lines == [] then []
    else
      var init := KeptLines(promptLines, lines[..|lines| - 1]);
      if KeepLine(promptLines, lines[|lines| - 1]) then init + [lines[|lines| - 1]] else init
  }

  /** The completion without the lines it repeats from the prompt and without `it(`/`describe(` lines. */
  function SharedPartRemoved(prompt: string, completion: string): string
  {
    Terminated(KeptLines(Split(prompt, '\n'), Split(completion, '\n')))
  }

  /** `removeSharedPart`. */
  method RemoveSharedPart(prompt: string, completion: string) returns (result: string)
    ensures result == SharedPartRemoved(prompt, completion)
  {
    result := "";
    var completionLines := Split(completion, '\n');
    var promptLines := Split(prompt, '\n');
    for i := 0 to |completionLines|
      invariant result == Terminated(KeptLines(promptLines, completionLines[..i]))
    {
      assert completionLines[..i + 1][..i] == completionLines[..i];
      if completionLines[i] !in promptLines
        && !StartsWith(Trim(completionLines[i]), "it(")
        && !StartsWith(Trim(completionLines[i]), "describe(")
      {
        TerminatedSnoc(KeptLines(promptLines, completionLines[..i]), completionLines[i]);
        result := result + completionLines[i] + "\n";
      }
    }
    assert completionLines[..|completionLines|] == completionLines;
  }

  /** Both filters keep exactly the lines that pass their test, in order. */
  lemma {:induction false} KeptLinesMembership(promptLines: seq<string>, lines: seq<string>)
    ensures forall l :: l in KeptLines(promptLines, lines) <==> l in lines && KeepLine(promptLines, l)
    ensures forall l :: l in NonBlankLines(lines) <==> l in lines && NonBlank(l)
  {
    if lines != [] {
      var init := lines[..|lines| - 1];
      KeptLinesMembership(promptLines, init);
      assert lines == init + [lines[|lines| - 1]];
    }
  }

  /**
   * The lines of `removeSharedPart`'s result are exactly the completion
   * lines that do not occur in the prompt and do not open an `it(` or
   * `describe(` block, in their order, then the empty line after the last
   * line break.
   */
  lemma SharedPartRemovedLines(prompt: string, completion: string)
    ensures Split(SharedPartRemoved(prompt, completion), '\n')
         == KeptLines(Split(prompt, '\n'), Split(completion, '\n')) + [""]
    ensures forall l :: (l in KeptLines(Split(prompt, '\n'), Split(completion, '\n'))
      <==> l in Split(completion, '\n') && KeepLine(Split(prompt, '\n'), l))
  {
    var kept := KeptLines(Split(prompt, '\n'), Split(completion, '\n'));
    KeptLinesMembership(Split(prompt, '\n'), Split(completion, '\n'));
    forall i | 0 <= i < |kept|
      ensures '\n' !in kept[i]
    {
      assert kept[i] in Split(completion, '\n');
    }
    TerminatedSplit(kept);
  }

  /** A completion after fence extraction, shared-part removal and trimming. */
  function Postprocess(h: Helpers, prompt: string, completion: string): string
  {
    h.trimCompletion(SharedPartRemoved(prompt, FencedCode(completion)))
  }

  function PostprocessAll(h: Helpers, prompt: string, completions: seq<string>): (r: seq<string>)
    ensures |r| == |completions| && forall i :: 0 <= i < |completions| ==> r[i] == Postprocess(h, prompt, completions[i])
  {
    if completions == [] then []
    else PostprocessAll(h, prompt, completions[..|completions| - 1]) + [Postprocess(h, prompt, completions[|completions| - 1])]
  }

  /**
   * The attempt that settles `completions`: the first one that is not
   * rate-limited, or `|attempts|` when every attempt is.
   */
  function Settling(attempts: seq<Result<CompletionSet>>): (k: nat)
    ensures k <= |attempts|
    ensures forall j :: 0 <= j < k ==> RateLimited(attempts[j])
    ensures k < |attempts| ==> !RateLimited(attempts[k])
  {
    if attempts == [] || !RateLimited(attempts[0]) then 0
    else
      var k := Settling(attempts[1..]);
      assert forall j :: 1 <= j < k + 1 ==> attempts[j] == attempts[1..][j - 1];
      k + 1
  }

  /** The completion set one successful response yields. */
  function Processed(h: Helpers, prompt: string, response: CompletionSet): CompletionSet
  {
    CompletionSet(Dedup(PostprocessAll(h, prompt, response.completions)), response.usedTokens)
  }

  /** The answer of `completions` to a sequence of query attempts. */
  function RetryOutcome(h: Helpers, prompt: string, attempts: seq<Result<CompletionSet>>): CompletionSet
  {
    var k := Settling(attempts);
    if k == |attempts| || attempts[k].Failure? then EmptyCompletionSet
    else Processed(h, prompt, attempts[k].value)
  }

  /** The number of query attempts `completions` makes before giving up. */
  const MaxAttempts: nat := 3

  class Codex {
    const isStarCoder: bool
    const instanceOptions: PostOptions

    /** The endpoint and headers come from the environment, which is not part of this model. */
    constructor (isStarCoder: bool, instanceOptions: PostOptions)
      ensures this.isStarCoder == isStarCoder && this.instanceOptions == instanceOptions
    {
      this.isStarCoder := isStarCoder;
      this.instanceOptions := instanceOptions;
    }

    /**
     * `query(prompt, request)` on attempt number `attempt`; `transport` is
     * what the endpoint does with each attempt's prompt and merged options.
     */
    function Query(prompt: string, request: PostOptions, attempt: nat,
                   transport: (nat, string, PostOptions) -> Exchange): Result<CompletionSet>
    {
      ParseResponse(isStarCoder, transport(attempt, prompt, MergedOptions(instanceOptions, request)))
    }

    function Attempts(prompt: string, temperature: Temperature, transport: (nat, string, PostOptions) -> Exchange)
      : (r: seq<Result<CompletionSet>>)
      ensures |r| == MaxAttempts
      ensures forall i :: 0 <= i < MaxAttempts ==> r[i] == Query(prompt, WithTemperature(temperature), i, transport)
    {
      seq(MaxAttempts, i requires 0 <= i < MaxAttempts => Query(prompt, WithTemperature(temperature), i, transport))
    }

    /** The loop of `completions` over one response's completions, collecting them into a set. */
    static method ProcessCompletions(h: Helpers, prompt: string, completions: seq<string>) returns (result: seq<string>)
      ensures result == Dedup(PostprocessAll(h, prompt, completions))
    {
      result := [];
      for j := 0 to |completions|
        invariant result == Dedup(PostprocessAll(h, prompt, completions[..j]))
      {
        var codePart := ExtractCode(completions[j]);
        codePart := RemoveSharedPart(prompt, codePart);
        var trimmed := h.trimCompletion(codePart);
        assert completions[..j + 1][..j] == completions[..j];
        assert PostprocessAll(h, prompt, completions[..j + 1]) == PostprocessAll(h, prompt, completions[..j]) + [trimmed];
        DedupSnoc(PostprocessAll(h, prompt, completions[..j]), trimmed);
        if trimmed !in result {
          result := result + [trimmed];
        }
      }
      assert completions[..|completions|] == completions;
    }

    /** `completions(prompt, temperature)`: up to three attempts, retrying only when rate-limited. */
    method Completions(h: Helpers, prompt: string, temperature: Temperature,
                       transport: (nat, string, PostOptions) -> Exchange) returns (r: CompletionSet)
      ensures r == RetryOutcome(h, prompt, Attempts(prompt, temperature, transport))
    {
      ghost var attempts := Attempts(prompt, temperature, transport);
      for i := 0 to MaxAttempts
        invariant forall j :: 0 <= j < i ==> RateLimited(attempts[j])
      {
        var q := Query(prompt, WithTemperature(temperature), i, transport);
        if q.Failure? {
          if Includes(q.error, RateLimitMarker) {
            continue;
          }
          SettlingAt(attempts, i);
          return EmptyCompletionSet;
        }
        SettlingAt(attempts, i);
        var result := ProcessCompletions(h, prompt, q.value.completions);
        return CompletionSet(result, q.value.usedTokens);
      }
      SettlingAt(attempts, MaxAttempts);
      return EmptyCompletionSet;
    }
  }

  // ---------------------------------------------------------------- lemmas

  /** The settling attempt is the one after a run of rate-limited attempts that is not itself rate-limited. */
  lemma SettlingAt(attempts: seq<Result<CompletionSet>>, k: nat)
    requires k <= |attempts| && forall j :: 0 <= j < k ==> RateLimited(attempts[j])
    requires k < |attempts| ==> !RateLimited(attempts[k])
    ensures Settling(attempts) == k
  {
  }

  /**
   * `completions` returns something other than the empty set only from an
   * attempt that succeeded after nothing but rate-limited attempts; the
   * set is that attempt's processed completions and tokens.
   */
  lemma RetryOutcomeSource(h: Helpers, prompt: string, attempts: seq<Result<CompletionSet>>)
    ensures RetryOutcome(h, prompt, attempts) == EmptyCompletionSet
      || exists k :: (0 <= k < |attempts| && attempts[k].Success?
         && (forall j :: 0 <= j < k ==> RateLimited(attempts[j]))
         && RetryOutcome(h, prompt, attempts) == Processed(h, prompt, attempts[k].value))
  {
  }

  /** When every attempt is rate-limited, `completions` gives up with an empty set costing no tokens. */
  lemma RetryGivesUp(h: Helpers, prompt: string, attempts: seq<Result<CompletionSet>>)
    requires forall i :: 0 <= i < |attempts| ==> RateLimited(attempts[i])
    ensures RetryOutcome(h, prompt, attempts) == EmptyCompletionSet
  {
    SettlingAt(attempts, |attempts|);
  }

  /** Any other error ends `completions` at once with an empty set. */
  lemma OtherErrorsAreFinal(h: Helpers, prompt: string, attempts: seq<Result<CompletionSet>>, k: nat)
    requires k < |attempts| && attempts[k].Failure? && !RateLimited(attempts[k])
    requires forall j :: 0 <= j < k ==> RateLimited(attempts[j])
    ensures RetryOutcome(h, prompt, attempts) == EmptyCompletionSet
  {
    SettlingAt(attempts, k);
  }

  /** A success after rate-limited attempts is the answer, processed. */
  lemma SuccessAfterRetries(h: Helpers, prompt: string, attempts: seq<Result<CompletionSet>>, k: nat)
    requires k < |attempts| && attempts[k].Success?
    requires forall j :: 0 <= j < k ==> RateLimited(attempts[j])
    ensures RetryOutcome(h, prompt, attempts) == Processed(h, prompt, attempts[k].value)
  {
    SettlingAt(attempts, k);
  }

  /** The processed completions are duplicate-free, one per distinct processed completion of the attempt. */
  lemma ProcessedCompletions(h: Helpers, prompt: string, cs: CompletionSet)
    ensures var r := Processed(h, prompt, cs);
      NoDuplicates(r.completions) && |r.completions| <= |cs.completions| && r.usedTokens == cs.usedTokens
      && forall c :: c in r.completions <==> exists i :: 0 <= i < |cs.completions| && c == Postprocess(h, prompt, cs.completions[i])
  {
    var r := Processed(h, prompt, cs);
    var all := PostprocessAll(h, prompt, cs.completions);
    forall c | c in r.completions
      ensures exists i :: 0 <= i < |cs.completions| && c == Postprocess(h, prompt, cs.completions[i])
    {
      var i :| 0 <= i < |all| && all[i] == c;
    }
    forall i | 0 <= i < |cs.completions|
      ensures Postprocess(h, prompt, cs.completions[i]) in r.completions
    {
      assert all[i] in all;
    }
  }

  /** The lines of a split text, and so any run of them, hold no line break. */
  lemma FencedBodyLines(lines: seq<string>, lo: nat, hi: nat)
    requires lo <= hi <= |lines| && forall i :: 0 <= i < |lines| ==> '\n' !in lines[i]
    ensures forall i :: 0 <= i < hi - lo ==> '\n' !in lines[lo..hi][i]
  {
    forall i | 0 <= i < hi - lo
      ensures '\n' !in lines[lo..hi][i]
    {
      assert lines[lo..hi][i] == lines[lo + i];
    }
  }

  /** The non-blank lines of lines without line breaks, each followed by one, split back into those lines. */
  lemma NonBlankTerminatedSplit(body: seq<string>)
    requires forall i :: 0 <= i < |body| ==> '\n' !in body[i]
    ensures Split(Terminated(NonBlankLines(body)), '\n') == NonBlankLines(body) + [""]
    ensures forall l :: l in NonBlankLines(body) <==> l in body && NonBlank(l)
  {
    var kept := NonBlankLines(body);
    KeptLinesMembership([], body);
    forall i | 0 <= i < |kept|
      ensures '\n' !in kept[i]
    {
      assert kept[i] in body;
    }
    TerminatedSplit(kept);
  }

  /** A completion without a fence line is kept whole before shared-part removal. */
  lemma UnfencedCompletionKept(completion: string)
    requires forall i :: 0 <= i < |Split(completion, '\n')| ==> !IsFence(Split(completion, '\n')[i])
    ensures FencedCode(completion) == completion
  {
  }

  /**
   * The lines of a fenced completion's code are its non-blank lines strictly
   * between the first fence line and the next one, then the empty line after
   * the last line break.
   */
  lemma FencedCodeLines(completion: string)
    requires exists i :: 0 <= i < |Split(completion, '\n')| && IsFence(Split(completion, '\n')[i])
    ensures var lines := Split(completion, '\n');
      var open := NextFence(lines, 0);
      open < |lines|
      && Split(FencedCode(completion), '\n') == NonBlankLines(lines[open + 1..NextFence(lines, open + 1)]) + [""]
      && forall l :: l in NonBlankLines(lines[open + 1..NextFence(lines, open + 1)])
           <==> l in lines[open + 1..NextFence(lines, open + 1)] && NonBlank(l)
  {
    var lines := Split(completion, '\n');
    var open := NextFence(lines, 0);
    var fence :| 0 <= fence < |lines| && IsFence(lines[fence]);
    assert open <= fence;
    var body := lines[open + 1..NextFence(lines, open + 1)];
    FencedBodyLines(lines, open + 1, NextFence(lines, open + 1));
    NonBlankTerminatedSplit(body);
  }
}
