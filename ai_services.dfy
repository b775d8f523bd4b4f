/** `AIService` of src/lib/ai-services.ts: the provider calls, which turn
    every outcome of the HTTP call into an in-band response, and
    `callAgent`, which routes an agent name to a provider through a
    case-insensitive alias table. The HTTP call itself is an input: the
    status and body it answered with, or what it threw. */
module AIServices {
  import opened Wrappers
  import opened Text

  datatype Provider = OpenAI | Gemini | Kimi | Claude | Llama | DeepSeek

  datatype Usage = Usage(promptTokens: int, completionTokens: int, totalTokens: int)

  /** `AIResponse`: `usage` and `error` are optional fields. */
  datatype AIResponse = AIResponse(content: string, model: string, usage: Option<Usage>, error: Option<string>)

  /** What a call throws: an `Error` with its message, or any other value. */
  datatype Thrown = ErrorObject(message: string) | OtherValue

  /** A response body: the contents of `choices[i].message.content`, and `usage`. */
  datatype Body = Body(choices: seq<string>, usage: Option<Usage>)

  /** The outcome of `blink.data.fetch`. */
  datatype FetchOutcome = Responded(status: int, body: Body) | FetchThrew(thrown: Thrown)

  /** The message of the TypeError raised by reading `message` of a missing
      first choice (the wording of the V8 engine). */
  const MissingChoiceMessage: string := "Cannot read properties of undefined (reading 'message')"

  const UnknownError: string := "Unknown error"

  datatype Role = System | User

  datatype ChatTurn = ChatTurn(role: Role, content: string)

  /** The body sent to the chat-completions endpoint. */
  datatype Request = Request(model: string, messages: seq<ChatTurn>, maxTokens: int, temperature: real)

  const DeepSeekSystemPrompt: string := "You are an expert programmer. Provide clean, efficient code solutions."

  /** The name in each provider's error message. */
  function Label(p: Provider): string {
    match p
    case OpenAI => "OpenAI"
    case Gemini => "Gemini"
    case Kimi => "KIMI"
    case Claude => "Claude"
    case Llama => "Llama"
    case DeepSeek => "DeepSeek"
  }

  /** The model a provider uses when the caller gives none. */
  function DefaultModel(p: Provider): string {
    match p
    case OpenAI => "openai/gpt-4-turbo"
    case Gemini => "google/gemini-pro"
    case Kimi => "moonshotai/kimi-k2:free"
    case Claude => "anthropic/claude-3.5-sonnet"
    case Llama => "meta-llama/llama-3-70b-instruct"
    case DeepSeek => "deepseek/deepseek-coder"
  }

  /** Kimi and DeepSeek take no model argument. */
  predicate FixedModel(p: Provider) {
    p == Kimi || p == DeepSeek
  }

  /** The model a call requests and reports: the argument when the provider
      accepts one and it is given, otherwise the provider's own. */
  function ModelFor(p: Provider, model: Option<string>): (m: string)
    ensures FixedModel(p) ==> m == DefaultModel(p)
    ensures !FixedModel(p) && model.Some? ==> m == model.value
    ensures model.None? ==> m == DefaultModel(p)
  {
    if FixedModel(p) || model.None? then DefaultModel(p) else model.value
  }

  /** The request body of `callX(prompt, model)`. */
  function RequestFor(p: Provider, prompt: string, model: Option<string>): (r: Request)
    ensures r.model == ModelFor(p, model) && r.maxTokens == 1000
    ensures |r.messages| >= 1 && r.messages[|r.messages| - 1] == ChatTurn(User, prompt)
    ensures p == DeepSeek <==> |r.messages| == 2
    ensures r.temperature == (if p == DeepSeek then 0.1 else 0.7)
  {
    if p == DeepSeek then
      Request(ModelFor(p, model), [ChatTurn(System, DeepSeekSystemPrompt), ChatTurn(User, prompt)], 1000, 0.1)
    else
      Request(ModelFor(p, model), [ChatTurn(User, prompt)], 1000, 0.7)
  }

  /** What the `try` block throws, if it throws. */
  function Failure(p: Provider, outcome: FetchOutcome): Option<Thrown> {
    match outcome
    case FetchThrew(t) => Some(t)
    case Responded(status, body) =>
      if status != 200 then Some(ErrorObject(Label(p) + " API error: " + IntToString(status)))
      else if |body.choices| == 0 then Some(ErrorObject(MissingChoiceMessage))
      else None
  }

  /** `callX`: a 200 answer yields the first choice and the usage; anything
      else, including a throw, yields an empty content and an error
      message. The model reported is always the one requested. */
  function CallProvider(p: Provider, model: Option<string>, outcome: FetchOutcome): (r: AIResponse)
    ensures r.model == ModelFor(p, model)
    ensures r.error.None? <==> outcome.Responded? && outcome.status == 200 && |outcome.body.choices| > 0
    ensures r.error.None? ==> r.content == outcome.body.choices[0] && r.usage == outcome.body.usage
    ensures r.error.Some? ==> r.content == "" && r.usage.None?
    ensures outcome.Responded? && outcome.status != 200 ==>
              r.error == Some(Label(p) + " API error: " + IntToString(outcome.status))
    ensures outcome.FetchThrew? ==>
              r.error == Some(if outcome.thrown.ErrorObject? then outcome.thrown.message else UnknownError)
  {
    var m := ModelFor(p, model);
    match Failure(p, outcome)
    case None => AIResponse(outcome.body.choices[0], m, outcome.body.usage, None)
    case Some(ErrorObject(message)) => AIResponse("", m, None, Some(message))
    case Some(OtherValue) => AIResponse("", m, None, Some(UnknownError))
  }

  /** The model a call reports is the model of the request it sent,
      whatever the prompt. */
  lemma ReportsRequestedModel(p: Provider, prompt: string, model: Option<string>, outcome: FetchOutcome)
    ensures CallProvider(p, model, outcome).model == RequestFor(p, prompt, model).model
  {
  }

  /** The `switch` of `callAgent`, on the lower-cased name. */
  function RouteLower(name: string): Option<Provider> {
    if name == "gpt-4" || name == "gpt-4-turbo" then Some(OpenAI)
    else if name == "claude" || name == "claude-3.5-sonnet" then Some(Claude)
    else if name == "gemini" || name == "gemini-pro" then Some(Gemini)
    else if name == "kimi" || name == "kimi-k2" then Some(Kimi)
    else if name == "llama" || name == "llama-3-70b" then Some(Llama)
    else if name == "deepseek" || name == "deepseek-coder" then Some(DeepSeek)
    else None
  }

  function Route(agentName: string): (r: Option<Provider>)
    ensures r.Some? ==> ToLower(agentName) in Aliases(r.value)
  {
    RouteLower(ToLower(agentName))
  }

  /** The two names of each provider in the table. */
  function Aliases(p: Provider): set<string> {
    match p
    case OpenAI => {"gpt-4", "gpt-4-turbo"}
    case Claude => {"claude", "claude-3.5-sonnet"}
    case Gemini => {"gemini", "gemini-pro"}
    case Kimi => {"kimi", "kimi-k2"}
    case Llama => {"llama", "llama-3-70b"}
    case DeepSeek => {"deepseek", "deepseek-coder"}
  }

  /** A name routes to a provider exactly when its lower-cased form is one
      of that provider's two aliases. */
  lemma RouteMatchesAliases(agentName: string, p: Provider)
    ensures Route(agentName) == Some(p) <==> ToLower(agentName) in Aliases(p)
  {
  }

  lemma {:induction false} ToLowerIdempotent(s: string)
    ensures ToLower(ToLower(s)) == ToLower(s)
  {
    assert forall i :: 0 <= i < |s| ==> LowerChar(LowerChar(s[i])) == LowerChar(s[i]);
  }

  /** Routing ignores case: a name and its lower-cased form, and any two
      names that agree up to case, reach the same provider. */
  lemma RouteIgnoresCase(a: string, b: string)
    ensures Route(ToLower(a)) == Route(a)
    ensures ToLower(a) == ToLower(b) ==> Route(a) == Route(b)
  {
    ToLowerIdempotent(a);
  }

  /** The model argument `callAgent` passes: only the OpenAI route names one. */
  function AgentModelArgument(p: Provider): Option<string> {
    if p == OpenAI then Some("openai/gpt-4-turbo") else None
  }

  /** `callAgent`: an unknown name is the only failure (thrown with the
      name as given); a known one always yields the provider's in-band
      response. */
  function CallAgent(agentName: string, outcome: FetchOutcome): (r: Result<AIResponse, string>)
    ensures r.Err? <==> Route(agentName).None?
    ensures r.Err? ==> r.error == "Unknown agent: " + agentName
    ensures r.Ok? ==> r.value.model == DefaultModel(Route(agentName).value)
    ensures r.Ok? ==> r.value == CallProvider(Route(agentName).value, None, outcome)
  {
    match Route(agentName)
    case None => Err("Unknown agent: " + agentName)
    case Some(p) => Ok(CallProvider(p, AgentModelArgument(p), outcome))
  }

  /** The request `callAgent` sends for a routed name. */
  function AgentRequest(agentName: string, prompt: string): (r: Option<Request>)
    ensures r.Some? <==> Route(agentName).Some?
    ensures r.Some? ==> r.value.model == DefaultModel(Route(agentName).value)
  {
    match Route(agentName)
    case None => None
    case Some(p) => Some(RequestFor(p, prompt, AgentModelArgument(p)))
  }
}
