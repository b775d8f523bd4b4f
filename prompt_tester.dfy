/** The prompt tester of src/components/ui/prompt-tester.tsx: `{key}`
    substitution, the cost table, the shaping of one test result around a
    routed provider call, and the result list the component keeps. The
    clock, the random ids and quality scores, and the provider's answer are
    inputs (one `Trial` per test). */
module PromptTester {
  import opened Wrappers
  import opened Text
  import AIServices

  // ---------------------------------------------------------------------
  // Placeholder substitution

  /** The text `{key}` that a variable replaces. */
  function Placeholder(key: string): (p: string)
    ensures |p| == |key| + 2 && p[0] == '{' && p[|p| - 1] == '}'
  {
    "{" + key + "}"
  }

  /** Every variable, in entry order, replaces all occurrences of its
      placeholder in the text produced by the variables before it. */
  function Substitute(text: string, vars: seq<(string, string)>): (r: string)
    ensures NoBrace(text) ==> r == text
    decreases |vars|
  {
    if vars == [] then text
    else
      BraceFreeIsUnchanged(text, vars[0].0, vars[0].1);
      Substitute(ReplaceAll(text, Placeholder(vars[0].0), vars[0].1), vars[1..])
  }

  predicate NoBrace(text: string) {
    forall i :: 0 <= i < |text| ==> text[i] != '{'
  }

  /** A text without an opening brace holds no placeholder. */
  lemma BraceFreeIsUnchanged(text: string, key: string, value: string)
    ensures NoBrace(text) ==> ReplaceAll(text, Placeholder(key), value) == text
  {
    if NoBrace(text) {
      var p := Placeholder(key);
      forall i | 0 <= i <= |text|
        ensures !OccursAt(text, p, i)
      {
        if i + |p| <= |text| {
          assert text[i..i + |p|][0] == text[i] != p[0];
        }
      }
      ReplaceAllAbsent(text, p, value);
    }
  }

  /** `processPrompt`: the `forEach` over `Object.entries(vars)`. */
  method ProcessPrompt(promptText: string, vars: seq<(string, string)>) returns (processed: string)
    ensures processed == Substitute(promptText, vars)
  {
    processed := promptText;
    for i := 0 to |vars|
      invariant Substitute(processed, vars[i..]) == Substitute(promptText, vars)
    {
      assert vars[i..][1..] == vars[i + 1..];
      processed := ReplaceAll(processed, Placeholder(vars[i].0), vars[i].1);
    }
    assert vars[|vars|..] == [];
  }

  /** Substituting a list of variables is substituting its first part, then
      the rest: the replacements happen key by key in entry order. */
  lemma {:induction false} SubstituteInOrder(text: string, first: seq<(string, string)>, rest: seq<(string, string)>)
    ensures Substitute(text, first + rest) == Substitute(Substitute(text, first), rest)
    decreases |first|
  {
    if first == [] {
      assert first + rest == rest;
    } else {
      assert (first + rest)[0] == first[0];
      assert (first + rest)[1..] == first[1..] + rest;
      SubstituteInOrder(ReplaceAll(text, Placeholder(first[0].0), first[0].1), first[1..], rest);
    }
  }

  /** One variable's step: the text is cut at every occurrence of the
      placeholder and the pieces, none of which holds the placeholder, are
      joined with the value. A placeholder that does not occur leaves the
      text unchanged. */
  lemma SubstituteOneKey(text: string, key: string, value: string)
    ensures Substitute(text, [(key, value)]) == Join(Split(text, Placeholder(key)), value)
    ensures forall k :: 0 <= k < |Split(text, Placeholder(key))| ==> !Contains(Split(text, Placeholder(key))[k], Placeholder(key))
    ensures !Contains(text, Placeholder(key)) ==> Substitute(text, [(key, value)]) == text
  {
    assert [(key, value)][1..] == [];
    ReplaceAllIsJoinOfSplit(text, Placeholder(key), value);
    SplitPiecesArePatternFree(text, Placeholder(key));
    if !Contains(text, Placeholder(key)) {
      ReplaceAllAbsent(text, Placeholder(key), value);
    }
  }

  /** A value that does not contain `{key}` does not guarantee that no
      `{key}` remains: the value joins with the surrounding braces. */
  lemma PlaceholderCanReappear()
    ensures !Contains("k", Placeholder("k"))
    ensures Substitute("{{k}}", [("k", "k")]) == "{k}"
  {
    var p := Placeholder("k");
    assert p == "{k}";
    assert [("k", "k")][1..] == [];
    var s := "{{k}}";
    assert !OccursAt(s, p, 0) by { assert s[1] != p[1]; }
    assert OccursAt(s, p, 1) by { assert s[1..4] == p; }
    assert ReplaceAll(s[4..], p, "k") == "}";
    assert ReplaceAll(s[1..], p, "k") == "k" + "}";
    assert ReplaceAll(s, p, "k") == "{k}";
  }

  // ---------------------------------------------------------------------
  // Cost

  /** The `rates` table; a missing entry is 0. */
  function TableRate(model: string): (rate: real)
    ensures rate >= 0.0
    ensures rate > 0.0 <==> model in {"claude-3.5-sonnet", "gpt-4-turbo", "gemini-pro", "deepseek-coder"}
  {
    if model == "claude-3.5-sonnet" then 0.003
    else if model == "gpt-4-turbo" then 0.01
    else if model == "gemini-pro" then 0.0005
    else if model == "deepseek-coder" then 0.0014
    else if model == "kimi-k2" then 0.0
    else 0.0
  }

  const FallbackRate: real := 0.001

  /** `rates[model] || 0.001`: a zero rate counts as missing. */
  function Rate(model: string): (r: real)
    ensures r == (if TableRate(model) != 0.0 then TableRate(model) else FallbackRate)
    ensures r > 0.0
  {
    if TableRate(model) != 0.0 then TableRate(model) else FallbackRate
  }

  /** `calculateCost`: the rate per thousand tokens. */
  function CalculateCost(model: string, tokens: int): (cost: real)
    ensures tokens >= 0 ==> cost >= 0.0
    ensures tokens == 0 <==> cost == 0.0
  {
    Rate(model) * (tokens as real / 1000.0)
  }

  /** The free model is charged the fallback rate, as is any model not in
      the table; every other listed model is charged its table rate. */
  lemma KimiPaysFallbackRate(tokens: int)
    ensures Rate("kimi-k2") == FallbackRate == Rate("llama")
    ensures CalculateCost("kimi-k2", tokens) == FallbackRate * (tokens as real / 1000.0)
    ensures Rate("gpt-4-turbo") == 0.01 && Rate("claude-3.5-sonnet") == 0.003
  {
  }

  /** Cost is linear in the token count. */
  lemma CostIsLinear(model: string, a: int, b: int)
    ensures CalculateCost(model, a + b) == CalculateCost(model, a) + CalculateCost(model, b)
  {
  }

  // ---------------------------------------------------------------------
  // One test

  datatype Rating = Good | Bad

  datatype Metrics = Metrics(responseTime: int, tokenCount: int, cost: real, qualityScore: Option<real>)

  datatype TestResult = TestResult(
    id: string, timestamp: int, model: string, prompt: string, response: string,
    metrics: Metrics, rating: Option<Rating>)

  /** The environment of one test: the generated id, the clock before and
      after the call, the provider's answer and the random quality score. */
  datatype Trial = Trial(id: string, startTime: int, endTime: int, outcome: AIServices.FetchOutcome, quality: real)

  /** `response.content || response.error || 'No response'`. */
  function ResponseText(r: AIServices.AIResponse): (text: string)
    ensures text != ""
    ensures r.content != "" ==> text == r.content
    ensures r.content == "" && r.error.Some? && r.error.value != "" ==> text == r.error.value
    ensures r.content == "" && (r.error.None? || r.error.value == "") ==> text == "No response"
  {
    if r.content != "" then r.content
    else if r.error.Some? && r.error.value != "" then r.error.value
    else "No response"
  }

  /** `response.usage?.totalTokens || 0`. */
  function TokenCount(r: AIServices.AIResponse): (n: int)
    ensures r.usage.None? ==> n == 0
  {
    if r.usage.Some? then r.usage.value.totalTokens else 0
  }

  /** `runSingleTest`: an unknown model is caught and reported as
      `Error: …` with zero metrics; otherwise the provider's response is
      shaped into a result. */
  function RunSingleTest(model: string, processedPrompt: string, t: Trial): (r: TestResult)
    ensures r.id == t.id && r.model == model && r.prompt == processedPrompt && r.rating.None?
    ensures r.metrics.responseTime == t.endTime - t.startTime
    ensures AIServices.Route(model).None? ==>
              && r.response == "Error: Unknown agent: " + model
              && r.metrics.tokenCount == 0 && r.metrics.cost == 0.0 && r.metrics.qualityScore == Some(0.0)
    ensures AIServices.Route(model).Some? ==>
              && r.metrics.cost == CalculateCost(model, r.metrics.tokenCount)
              && r.metrics.qualityScore == Some(t.quality)
    ensures r.response != ""
  {
    TestOutcome(model, processedPrompt, t, AIServices.CallAgent(model, t.outcome))
  }

  /** The result of one test given what `callAgent` returned or threw. */
  function TestOutcome(model: string, processedPrompt: string, t: Trial, call: Result<AIServices.AIResponse, string>): (r: TestResult)
    ensures r.id == t.id && r.model == model && r.prompt == processedPrompt && r.rating.None?
    ensures r.metrics.responseTime == t.endTime - t.startTime
    ensures call.Err? ==>
              && r.response == "Error: " + call.error
              && r.metrics.tokenCount == 0 && r.metrics.cost == 0.0 && r.metrics.qualityScore == Some(0.0)
    ensures call.Ok? ==>
              && r.metrics.cost == CalculateCost(model, r.metrics.tokenCount)
              && r.metrics.qualityScore == Some(t.quality)
    ensures r.response != ""
  {
    match call
    case Err(message) =>
      TestResult(t.id, t.endTime, model, processedPrompt, "Error: " + message,
                 Metrics(t.endTime - t.startTime, 0, 0.0, Some(0.0)), None)
    case Ok(response) =>
      var tokens := TokenCount(response);
      TestResult(t.id, t.endTime, model, processedPrompt, ResponseText(response),
                 Metrics(t.endTime - t.startTime, tokens, CalculateCost(model, tokens), Some(t.quality)), None)
  }

  /** A provider that answers 200 with a first choice gives that choice as
      the response and charges its total tokens; a provider error is shown
      as its message. */
  lemma SingleTestOutcomes(model: string, processedPrompt: string, t: Trial)
    requires AIServices.Route(model).Some?
    ensures t.outcome.Responded? && t.outcome.status == 200 && |t.outcome.body.choices| > 0
            && t.outcome.body.choices[0] != "" ==>
              RunSingleTest(model, processedPrompt, t).response == t.outcome.body.choices[0]
    ensures t.outcome.Responded? && t.outcome.status != 200 ==>
              RunSingleTest(model, processedPrompt, t).response ==
                AIServices.Label(AIServices.Route(model).value) + " API error: " + IntToString(t.outcome.status)
    ensures t.outcome.Responded? && t.outcome.status == 200 && |t.outcome.body.choices| > 0
            && t.outcome.body.usage.Some? ==>
              RunSingleTest(model, processedPrompt, t).metrics.tokenCount == t.outcome.body.usage.value.totalTokens
  {
    var p := AIServices.Route(model).value;
    var providerName := AIServices.Label(p);
    assert providerName != "";
  }

  // ---------------------------------------------------------------------
  // The result list

  datatype ModelEntry = ModelEntry(id: string, name: string, provider: string)

  const Models: seq<ModelEntry> := [
    ModelEntry("claude-3.5-sonnet", "Claude 3.5 Sonnet", "Anthropic"),
    ModelEntry("gpt-4-turbo", "GPT-4 Turbo", "OpenAI"),
    ModelEntry("gemini-pro", "Gemini Pro", "Google"),
    ModelEntry("deepseek-coder", "DeepSeek Coder", "DeepSeek"),
    ModelEntry("kimi-k2", "KIMI K2", "Moonshot AI")]

  /** Every model the tester offers is routed by `callAgent`, so a batch
      test never reports an unknown agent. */
  lemma ListedModelsAreRouted()
    ensures forall i :: 0 <= i < |Models| ==> AIServices.Route(Models[i].id).Some?
  {
    assert ToLower("claude-3.5-sonnet") == "claude-3.5-sonnet";
    assert ToLower("gpt-4-turbo") == "gpt-4-turbo";
    assert ToLower("gemini-pro") == "gemini-pro";
    assert ToLower("deepseek-coder") == "deepseek-coder";
    assert ToLower("kimi-k2") == "kimi-k2";
  }

  /** `rateResult`: the map over the list. */
  function Rated(results: seq<TestResult>, resultId: string, rating: Rating): (r: seq<TestResult>)
    ensures |r| == |results|
    ensures forall i :: 0 <= i < |results| ==>
              r[i] == if results[i].id == resultId then results[i].(rating := Some(rating)) else results[i]
  {
    seq(|results|, i requires 0 <= i < |results| =>
      if results[i].id == resultId then results[i].(rating := Some(rating)) else results[i])
  }

  /** Rating changes nothing but the rating, and rating twice with the
      same verdict is rating once. */
  lemma RatingKeepsResults(results: seq<TestResult>, resultId: string, rating: Rating)
    ensures forall i :: 0 <= i < |results| ==>
              Rated(results, resultId, rating)[i].(rating := None) == results[i].(rating := None)
    ensures Rated(Rated(results, resultId, rating), resultId, rating) == Rated(results, resultId, rating)
  {
  }

  datatype Averages = Averages(responseTime: real, tokenCount: real, cost: real, qualityScore: real)

  function SumTime(rs: seq<TestResult>): int {
    if rs == [] then 0 else SumTime(rs[..|rs| - 1]) + rs[|rs| - 1].metrics.responseTime
  }

  function SumTokens(rs: seq<TestResult>): int {
    if rs == [] then 0 else SumTokens(rs[..|rs| - 1]) + rs[|rs| - 1].metrics.tokenCount
  }

  function SumCost(rs: seq<TestResult>): real {
    if rs == [] then 0.0 else SumCost(rs[..|rs| - 1]) + rs[|rs| - 1].metrics.cost
  }

  /** `qualityScore || 0`. */
  function SumQuality(rs: seq<TestResult>): real {
    if rs == [] then 0.0
    else SumQuality(rs[..|rs| - 1])
         + (var q := rs[|rs| - 1].metrics.qualityScore; if q.Some? then q.value else 0.0)
  }

  /** `getAverageMetrics`: the means of the metrics, or nothing for an
      empty list. */
  function AverageMetrics(results: seq<TestResult>): (r: Option<Averages>)
    ensures r.None? <==> |results| == 0
    ensures r.Some? ==> r.value.responseTime * |results| as real == SumTime(results) as real
    ensures r.Some? ==> r.value.cost * |results| as real == SumCost(results)
  {
    if |results| == 0 then None
    else
      var n := |results| as real;
      Some(Averages(SumTime(results) as real / n, SumTokens(results) as real / n,
                    SumCost(results) / n, SumQuality(results) / n))
  }

  lemma AppendKeeps(rs: seq<TestResult>, r: TestResult)
    ensures |rs + [r]| == |rs| + 1 && (rs + [r])[|rs|] == r
    ensures forall j :: 0 <= j < |rs| ==> (rs + [r])[j] == rs[j]
  {
  }

  /** The results of `count` tests of one model, one per trial in run
      order; a count below one gives none. */
  function Batch(model: string, processedPrompt: string, trials: seq<Trial>, count: int): (rs: seq<TestResult>)
    requires count <= |trials|
    ensures |rs| == (if count < 0 then 0 else count)
  {
    seq(if count < 0 then 0 else count, j requires 0 <= j < count => RunSingleTest(model, processedPrompt, trials[j]))
  }

  lemma BatchIsPointwise(model: string, processedPrompt: string, trials: seq<Trial>, count: int, rs: seq<TestResult>)
    requires count <= |trials| && |rs| == (if count < 0 then 0 else count)
    requires forall j :: 0 <= j < |rs| ==> rs[j] == RunSingleTest(model, processedPrompt, trials[j])
    ensures rs == Batch(model, processedPrompt, trials, count)
  {
  }

  /** The component state that the result operations update. */
  class Tester {
    const prompt: string
    const variables: seq<(string, string)>
    var selectedModel: string
    var batchSize: int
    var results: seq<TestResult>
    var isRunning: bool

    constructor (prompt: string, variables: seq<(string, string)>)
      ensures this.prompt == prompt && this.variables == variables
      ensures selectedModel == "claude-3.5-sonnet" && batchSize == 1
      ensures results == [] && !isRunning
    {
      this.prompt := prompt;
      this.variables := variables;
      selectedModel := "claude-3.5-sonnet";
      batchSize := 1;
      results := [];
      isRunning := false;
    }

    /** `runTest`: nothing for a blank prompt; otherwise `batchSize` tests
        of the selected model, appended after the existing results in run
        order. */
    method RunTest(trials: seq<Trial>)
      requires batchSize <= |trials|
      modifies this
      ensures selectedModel == old(selectedModel) && batchSize == old(batchSize)
      ensures AllSpace(prompt) ==> results == old(results) && isRunning == old(isRunning)
      ensures !AllSpace(prompt) ==> !isRunning
      ensures !AllSpace(prompt) ==>
                results == old(results) + Batch(selectedModel, Substitute(prompt, variables), trials, batchSize)
    {
      TrimEmptyIffAllSpace(prompt);
      if Trim(prompt) == "" {
        return;
      }
      isRunning := true;
      var processedPrompt := ProcessPrompt(prompt, variables);
      var newResults := RunBatch(selectedModel, processedPrompt, trials, batchSize);
      results := results + newResults;
      isRunning := false;
    }

    /** The loop of `runTest`: `count` tests of one model, in run order;
        a count below one runs none. */
    method RunBatch(model: string, processedPrompt: string, trials: seq<Trial>, count: int)
      returns (newResults: seq<TestResult>)
      requires count <= |trials|
      ensures |newResults| == (if count < 0 then 0 else count)
      ensures forall j :: 0 <= j < |newResults| ==> newResults[j] == RunSingleTest(model, processedPrompt, trials[j])
      ensures newResults == Batch(model, processedPrompt, trials, count)
    {
      newResults := [];
      var i := 0;
      while i < count
        invariant 0 <= i <= (if count < 0 then 0 else count)
        invariant |newResults| == i
        invariant forall j :: 0 <= j < i ==> newResults[j] == RunSingleTest(model, processedPrompt, trials[j])
      {
        var result := RunSingleTest(model, processedPrompt, trials[i]);
        AppendKeeps(newResults, result);
        newResults := newResults + [result];
        i := i + 1;
      }
      BatchIsPointwise(model, processedPrompt, trials, count, newResults);
    }

    /** `runBatchTest`: one test per offered model, in list order. */
    method RunBatchTest(trials: seq<Trial>)
      requires |trials| == |Models|
      modifies this
      ensures selectedModel == old(selectedModel) && batchSize == old(batchSize)
      ensures AllSpace(prompt) ==> results == old(results) && isRunning == old(isRunning)
      ensures !AllSpace(prompt) ==> !isRunning
      ensures !AllSpace(prompt) ==>
                && |results| == |old(results)| + |Models|
                && results[..|old(results)|] == old(results)
                && forall i :: 0 <= i < |Models| ==>
                     results[|old(results)| + i] == RunSingleTest(Models[i].id, Substitute(prompt, variables), trials[i])
    {
      TrimEmptyIffAllSpace(prompt);
      if Trim(prompt) == "" {
        return;
      }
      isRunning := true;
      var processedPrompt := ProcessPrompt(prompt, variables);
      var newResults: seq<TestResult> := [];
      for i := 0 to |Models|
        invariant |newResults| == i
        invariant forall j :: 0 <= j < i ==> newResults[j] == RunSingleTest(Models[j].id, processedPrompt, trials[j])
        invariant results == old(results) && selectedModel == old(selectedModel) && batchSize == old(batchSize)
      {
        var result := RunSingleTest(Models[i].id, processedPrompt, trials[i]);
        AppendKeeps(newResults, result);
        newResults := newResults + [result];
      }
      results := results + newResults;
      isRunning := false;
    }

    /** `rateResult`. */
    method RateResult(resultId: string, rating: Rating)
      modifies this
      ensures results == Rated(old(results), resultId, rating)
      ensures selectedModel == old(selectedModel) && batchSize == old(batchSize) && isRunning == old(isRunning)
    {
      results := Rated(results, resultId, rating);
    }

    /** `clearResults`. */
    method ClearResults()
      modifies this
      ensures results == [] && selectedModel == old(selectedModel) && batchSize == old(batchSize)
      ensures isRunning == old(isRunning)
      ensures AverageMetrics(results).None?
    {
      results := [];
    }
  }
}
